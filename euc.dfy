/**
 * The Euclidean rhythm generator: the bucket-merge form of Bjorklund's algorithm
 * ("Structural properties of Euclidean rhythms", 2009), with the final rotation by
 * Python slicing.
 *
 * `Euc` is the generator as the program runs it, with its loops over a list of buckets.
 * `Euclidean` is the same computation written as functions, one per loop, and the
 * lemmas below state what the result is: its length, its number of ones and zeros,
 * the degenerate cases, the rotation and its first element.
 */
module Euclid {
  import opened Numbers

  type Bucket = seq<int>

  function Min(x: int, y: int): int { if x <= y then x else y }
  function Max(x: int, y: int): int { if x <= y then y else x }

  /** `count` copies of `x`. */
  function Repeat(x: int, count: nat): (r: seq<int>)
    ensures |r| == count && forall i :: 0 <= i < count ==> r[i] == x
  {
    seq(count, _ => x)
  }

  /** `list(chain.from_iterable(s))`: the buckets' contents, in order. */
  function Flatten(s: seq<Bucket>): seq<int>
  {
    if s == [] then [] else s[0] + Flatten(s[1..])
  }

  /** The starting buckets: `subdivisions` singletons, the first `onsets` of them `[1]`, the rest `[0]`. */
  function InitialBuckets(onsets: int, subdivisions: int): (s: seq<Bucket>)
    ensures |s| == Max(subdivisions, 0)
  {
    seq(Max(subdivisions, 0), i => if i < onsets then [1] else [0])
  }

  /** One `s[j].extend(s.pop())`: the last bucket is appended to bucket `j` and removed. */
  function Fold(s: seq<Bucket>, j: nat): (t: seq<Bucket>)
    requires j < |s| - 1
    ensures |t| == |s| - 1
  {
    s[..|s| - 1][j := s[j] + s[|s| - 1]]
  }

  /**
   * `for j in range(j, w): s[j].extend(s.pop())`, started after `j` of the `w` folds are done.
   * The list held `|s| + j >= 2 * w` buckets before the first fold, so no fold ever appends
   * the last bucket to itself.
   */
  function Sweep(s: seq<Bucket>, j: nat, w: nat): (t: seq<Bucket>)
    requires j <= w && 2 * w <= |s| + j
    ensures |t| == |s| - (w - j)
    decreases w - j
  {
    if j == w then s else Sweep(Fold(s, j), j + 1, w)
  }

  /** `for i in range(rounds): for j in range(w): s[j].extend(s.pop())`. */
  function Rounds(s: seq<Bucket>, rounds: nat, w: nat): (t: seq<Bucket>)
    requires (rounds + 1) * w <= |s|
    ensures |t| == |s| - rounds * w
    decreases rounds
  {
    if rounds == 0 then s
    else
      assert 2 * w <= |s| by { MulLe(2, rounds + 1, w); }
      Rounds(Sweep(s, 0, w), rounds - 1, w)
  }

  /** The `while b > 1` loop: merge `a // b` rounds of width `b`, then `(a, b) := (b, a % b)`. */
  function Collapse(s: seq<Bucket>, a: nat, b: nat): seq<Bucket>
    requires b < a && |s| == a + b
    decreases b
  {
    if b > 1 then
      RemainderRounds(a, b);
      Collapse(Rounds(s, a / b, b), b, a % b)
    else s
  }

  /** `(a // b + 1) * b <= a + b`, and what is left after `a // b` rounds of width `b`. */
  lemma RemainderRounds(a: nat, b: nat)
    requires b > 0
    ensures (a / b + 1) * b <= a + b
    ensures a + b - (a / b) * b == b + a % b
  {
    assert a == (a / b) * b + a % b;
  }

  /**
   * The pattern before rotation, for `1 <= onsets < subdivisions` (when `a := min(k, n - k) >= 1`).
   */
  function Unrotated(onsets: int, subdivisions: int): seq<int>
    requires 1 <= onsets < subdivisions
  {
    var s := InitialBuckets(onsets, subdivisions);
    var a := Min(onsets, subdivisions - onsets);
    var b := Max(onsets, subdivisions - onsets);
    RemainderRounds(b, a);
    Flatten(Collapse(Rounds(s, b / a, a), a, b % a))
  }

  /**
   * Python's normalisation of a slice bound `i` on a list of length `n`:
   * a negative bound counts from the end, and the bound is clipped to `[0, n]`.
   */
  function SliceIndex(i: int, n: nat): (c: nat)
    ensures c <= n
  {
    if i < 0 then (if i + n < 0 then 0 else i + n) else (if i > n then n else i)
  }

  /** `p[-rotation:] + p[:-rotation]`. */
  function Rotate(p: seq<int>, rotation: int): (r: seq<int>)
    ensures |r| == |p| && multiset(r) == multiset(p)
    ensures rotation == 0 || rotation >= |p| || rotation <= -|p| ==> r == p
    ensures 0 < rotation < |p| ==> r == p[|p| - rotation..] + p[..|p| - rotation]
    ensures -|p| < rotation < 0 ==> r == p[-rotation..] + p[..-rotation]
  {
    var c := SliceIndex(-rotation, |p|);
    assert p == p[..c] + p[c..];
    p[c..] + p[..c]
  }

  /**
   * `euc(onsets, subdivisions, rotation)`: when `min(onsets, subdivisions - onsets) < 1`
   * the flattened initial buckets, unrotated; otherwise the rotated Bjorklund pattern.
   */
  function Euclidean(onsets: int, subdivisions: int, rotation: int): seq<int>
  {
    if Min(onsets, subdivisions - onsets) < 1 then Flatten(InitialBuckets(onsets, subdivisions))
    else Rotate(Unrotated(onsets, subdivisions), rotation)
  }

  // ---------------------------------------------------------------------------
  // Merging only moves elements between buckets.

  /** The first bucket exists and is non-empty. */
  predicate Leads(s: seq<Bucket>)
  {
    |s| > 0 && |s[0]| > 0
  }

  /** `t` holds the elements of `s`, rearranged, and keeps the first element of `s` in front. */
  predicate Moved(s: seq<Bucket>, t: seq<Bucket>)
  {
    multiset(Flatten(t)) == multiset(Flatten(s)) &&
    (Leads(s) ==> Leads(t) && t[0][0] == s[0][0])
  }

  lemma {:induction false} FlattenConcat(x: seq<Bucket>, y: seq<Bucket>)
    ensures Flatten(x + y) == Flatten(x) + Flatten(y)
  {
    if x == [] {
      assert x + y == y;
    } else {
      assert (x + y)[0] == x[0];
      assert (x + y)[1..] == x[1..] + y;
      FlattenConcat(x[1..], y);
    }
  }

  lemma FlattenLeads(s: seq<Bucket>)
    requires Leads(s)
    ensures |Flatten(s)| > 0 && Flatten(s)[0] == s[0][0]
  {
  }

  lemma FoldMoves(s: seq<Bucket>, j: nat)
    requires j < |s| - 1
    ensures Moved(s, Fold(s, j))
  {
    var last := |s| - 1;
    var t := Fold(s, j);
    assert s == s[..j] + [s[j]] + s[j + 1..last] + [s[last]];
    assert t == s[..j] + [s[j] + s[last]] + s[j + 1..last];
    FlattenConcat(s[..j] + [s[j]] + s[j + 1..last], [s[last]]);
    FlattenConcat(s[..j] + [s[j]], s[j + 1..last]);
    FlattenConcat(s[..j], [s[j]]);
    FlattenConcat(s[..j] + [s[j] + s[last]], s[j + 1..last]);
    FlattenConcat(s[..j], [s[j] + s[last]]);
    assert Flatten([s[last]]) == s[last];
    assert Flatten([s[j]]) == s[j];
    assert Flatten([s[j] + s[last]]) == s[j] + s[last];
    if Leads(s) && j == 0 {
      assert t[0] == s[0] + s[last];
    }
  }

  lemma MovedTransitive(s: seq<Bucket>, t: seq<Bucket>, u: seq<Bucket>)
    requires Moved(s, t) && Moved(t, u)
    ensures Moved(s, u)
  {
  }

  lemma {:induction false} SweepMoves(s: seq<Bucket>, j: nat, w: nat)
    requires j <= w && 2 * w <= |s| + j
    ensures Moved(s, Sweep(s, j, w))
    decreases w - j
  {
    if j < w {
      FoldMoves(s, j);
      SweepMoves(Fold(s, j), j + 1, w);
      MovedTransitive(s, Fold(s, j), Sweep(s, j, w));
    }
  }

  lemma {:induction false} RoundsMoves(s: seq<Bucket>, rounds: nat, w: nat)
    requires (rounds + 1) * w <= |s|
    ensures Moved(s, Rounds(s, rounds, w))
    decreases rounds
  {
    if rounds > 0 {
      assert 2 * w <= |s| by { MulLe(2, rounds + 1, w); }
      SweepMoves(s, 0, w);
      RoundsMoves(Sweep(s, 0, w), rounds - 1, w);
      MovedTransitive(s, Sweep(s, 0, w), Rounds(s, rounds, w));
    }
  }

  lemma {:induction false} CollapseMoves(s: seq<Bucket>, a: nat, b: nat)
    requires b < a && |s| == a + b
    ensures Moved(s, Collapse(s, a, b))
    decreases b
  {
    if b > 1 {
      RemainderRounds(a, b);
      RoundsMoves(s, a / b, b);
      CollapseMoves(Rounds(s, a / b, b), b, a % b);
      MovedTransitive(s, Rounds(s, a / b, b), Collapse(s, a, b));
    }
  }

  // ---------------------------------------------------------------------------
  // The initial buckets, flattened.

  lemma {:induction false} FlattenSingletons(s: seq<Bucket>)
    requires forall i :: 0 <= i < |s| ==> |s[i]| == 1
    ensures |Flatten(s)| == |s|
    ensures forall i :: 0 <= i < |s| ==> Flatten(s)[i] == s[i][0]
  {
    if s != [] {
      FlattenSingletons(s[1..]);
    }
  }

  /** The flattened initial buckets: `onsets` ones, then zeros, `subdivisions` in all. */
  lemma InitialFlattened(onsets: int, subdivisions: int)
    ensures Flatten(InitialBuckets(onsets, subdivisions))
         == seq(Max(subdivisions, 0), i => if i < onsets then 1 else 0)
  {
    FlattenSingletons(InitialBuckets(onsets, subdivisions));
  }

  lemma {:induction false} RepeatCount(x: int, count: nat)
    ensures multiset(Repeat(x, count))[x] == count
    ensures forall y :: y != x ==> multiset(Repeat(x, count))[y] == 0
  {
    if count > 0 {
      assert Repeat(x, count) == Repeat(x, count - 1) + [x];
      RepeatCount(x, count - 1);
    }
  }

  lemma InitialCounts(onsets: int, subdivisions: int)
    requires 0 <= onsets <= subdivisions
    ensures multiset(Flatten(InitialBuckets(onsets, subdivisions)))
         == multiset(Repeat(1, onsets) + Repeat(0, subdivisions - onsets))
  {
    InitialFlattened(onsets, subdivisions);
    assert Flatten(InitialBuckets(onsets, subdivisions))
        == Repeat(1, onsets) + Repeat(0, subdivisions - onsets);
  }

  // ---------------------------------------------------------------------------
  // What `euc` returns.

  /** The pattern has one entry per subdivision (none for `subdivisions <= 0`). */
  lemma EuclideanLength(onsets: int, subdivisions: int, rotation: int)
    ensures |Euclidean(onsets, subdivisions, rotation)| == Max(subdivisions, 0)
  {
    InitialFlattened(onsets, subdivisions);
    if Min(onsets, subdivisions - onsets) >= 1 {
      UnrotatedMoves(onsets, subdivisions);
      assert |Unrotated(onsets, subdivisions)| == |multiset(Flatten(InitialBuckets(onsets, subdivisions)))|;
    }
  }

  /** The unrotated pattern is a rearrangement of the initial buckets that keeps their first element. */
  lemma UnrotatedMoves(onsets: int, subdivisions: int)
    requires 1 <= onsets < subdivisions
    ensures multiset(Unrotated(onsets, subdivisions)) == multiset(Flatten(InitialBuckets(onsets, subdivisions)))
    ensures |Unrotated(onsets, subdivisions)| > 0 && Unrotated(onsets, subdivisions)[0] == 1
  {
    var s := InitialBuckets(onsets, subdivisions);
    var a := Min(onsets, subdivisions - onsets);
    var b := Max(onsets, subdivisions - onsets);
    RemainderRounds(b, a);
    var t := Rounds(s, b / a, a);
    RoundsMoves(s, b / a, a);
    var u := Collapse(t, a, b % a);
    CollapseMoves(t, a, b % a);
    assert Unrotated(onsets, subdivisions) == Flatten(u);
    assert Leads(s) && s[0][0] == 1;
    MovedFlattens(s, t, u);
  }

  /** Two rearrangements in a row flatten to a rearrangement with the same first element. */
  lemma MovedFlattens(s: seq<Bucket>, t: seq<Bucket>, u: seq<Bucket>)
    requires Moved(s, t) && Moved(t, u) && Leads(s)
    ensures multiset(Flatten(u)) == multiset(Flatten(s))
    ensures |Flatten(u)| > 0 && Flatten(u)[0] == s[0][0]
  {
    MovedTransitive(s, t, u);
    FlattenLeads(u);
  }

  /** The pattern is a rearrangement of `onsets` ones followed by `subdivisions - onsets` zeros. */
  lemma EuclideanPermutesInitial(onsets: int, subdivisions: int, rotation: int)
    requires 0 <= onsets <= subdivisions
    ensures multiset(Euclidean(onsets, subdivisions, rotation))
         == multiset(Repeat(1, onsets) + Repeat(0, subdivisions - onsets))
  {
    InitialCounts(onsets, subdivisions);
    if Min(onsets, subdivisions - onsets) >= 1 {
      UnrotatedMoves(onsets, subdivisions);
    }
  }

  /** For `0 <= onsets <= subdivisions` the pattern holds exactly `onsets` ones and the rest zeros. */
  lemma EuclideanCounts(onsets: int, subdivisions: int, rotation: int)
    requires 0 <= onsets <= subdivisions
    ensures var p := Euclidean(onsets, subdivisions, rotation);
      multiset(p)[1] == onsets && multiset(p)[0] == subdivisions - onsets &&
      forall x :: x in p ==> x == 0 || x == 1
  {
    var p := Euclidean(onsets, subdivisions, rotation);
    var ones, zeros := Repeat(1, onsets), Repeat(0, subdivisions - onsets);
    EuclideanPermutesInitial(onsets, subdivisions, rotation);
    assert multiset(p) == multiset(ones) + multiset(zeros);
    RepeatCount(1, onsets);
    RepeatCount(0, subdivisions - onsets);
    forall x | x in p
      ensures x == 0 || x == 1
    {
      assert x in multiset(p);
    }
  }

  /** With no onsets, or with at least as many onsets as subdivisions, the rotation is ignored. */
  lemma EuclideanDegenerate(onsets: int, subdivisions: int, rotation: int)
    ensures onsets <= 0 ==> Euclidean(onsets, subdivisions, rotation) == Repeat(0, Max(subdivisions, 0))
    ensures onsets >= subdivisions ==> Euclidean(onsets, subdivisions, rotation) == Repeat(1, Max(subdivisions, 0))
  {
    InitialFlattened(onsets, subdivisions);
  }

  /**
   * A rotation `0 < r < n` moves the last `r` elements of the unrotated pattern to the front;
   * a rotation of 0 or of at least `n` leaves it as it is.
   */
  lemma EuclideanRotation(onsets: int, subdivisions: int, rotation: int)
    ensures var p, n := Euclidean(onsets, subdivisions, 0), Max(subdivisions, 0);
      |p| == n &&
      (0 < rotation < n ==> Euclidean(onsets, subdivisions, rotation) == p[n - rotation..] + p[..n - rotation]) &&
      (rotation == 0 || rotation >= n ==> Euclidean(onsets, subdivisions, rotation) == p)
  {
    var p, n := Euclidean(onsets, subdivisions, 0), Max(subdivisions, 0);
    EuclideanLength(onsets, subdivisions, 0);
    if Min(onsets, subdivisions - onsets) < 1 {
      EuclideanDegenerate(onsets, subdivisions, 0);
      if 0 < rotation < n {
        var x := if onsets <= 0 then 0 else 1;
        assert p == Repeat(x, n);
        assert p[n - rotation..] + p[..n - rotation] == p;
      }
    }
  }

  /** When there is an onset and a subdivision, the unrotated pattern starts with an onset. */
  lemma EuclideanStartsWithOnset(onsets: int, subdivisions: int)
    requires onsets >= 1 && subdivisions >= 1
    ensures |Euclidean(onsets, subdivisions, 0)| > 0 && Euclidean(onsets, subdivisions, 0)[0] == 1
  {
    if onsets < subdivisions {
      UnrotatedMoves(onsets, subdivisions);
    } else {
      EuclideanDegenerate(onsets, subdivisions, 0);
    }
  }

  /** The pattern contains an onset exactly when there is at least one onset and one subdivision. */
  lemma EuclideanHasOnset(onsets: int, subdivisions: int, rotation: int)
    ensures 1 in Euclidean(onsets, subdivisions, rotation) <==> onsets >= 1 && subdivisions >= 1
  {
    var p := Euclidean(onsets, subdivisions, rotation);
    EuclideanDegenerate(onsets, subdivisions, rotation);
    EuclideanLength(onsets, subdivisions, rotation);
    if 1 <= onsets < subdivisions {
      EuclideanCounts(onsets, subdivisions, rotation);
      assert 1 in multiset(p);
    } else if onsets >= subdivisions && subdivisions >= 1 {
      assert p[0] == 1;
    }
  }

  /** The first merge phase of `euc(3, 8, _)`: one round of width 3. */
  lemma TresilloFirstPhase()
    ensures Rounds(InitialBuckets(3, 8), 1, 3) == [[1, 0], [1, 0], [1, 0], [0], [0]]
  {
    var s := InitialBuckets(3, 8);
    assert s == [[1], [1], [1], [0], [0], [0], [0], [0]];
    var s1 := Fold(s, 0);
    assert s1 == [[1, 0], [1], [1], [0], [0], [0], [0]] by {
      assert s[..7] == [[1], [1], [1], [0], [0], [0], [0]];
      assert s[0] + s[7] == [1, 0];
    }
    var s2 := Fold(s1, 1);
    assert s2 == [[1, 0], [1, 0], [1], [0], [0], [0]] by {
      assert s1[..6] == [[1, 0], [1], [1], [0], [0], [0]];
      assert s1[1] + s1[6] == [1, 0];
    }
    var t := Fold(s2, 2);
    assert t == [[1, 0], [1, 0], [1, 0], [0], [0]] by {
      assert s2[..5] == [[1, 0], [1, 0], [1], [0], [0]];
      assert s2[2] + s2[5] == [1, 0];
    }
    assert Sweep(s, 0, 3) == t;
  }

  /** The `while` phase of `euc(3, 8, _)`: one round of width 2, after which `b` is 1. */
  lemma TresilloSecondPhase()
    ensures Collapse([[1, 0], [1, 0], [1, 0], [0], [0]], 3, 2) == [[1, 0, 0], [1, 0, 0], [1, 0]]
  {
    var t: seq<Bucket> := [[1, 0], [1, 0], [1, 0], [0], [0]];
    var t1 := Fold(t, 0);
    assert t1 == [[1, 0, 0], [1, 0], [1, 0], [0]] by {
      assert t[..4] == [[1, 0], [1, 0], [1, 0], [0]];
      assert t[0] + t[4] == [1, 0, 0];
    }
    var u := Fold(t1, 1);
    assert u == [[1, 0, 0], [1, 0, 0], [1, 0]] by {
      assert t1[..3] == [[1, 0, 0], [1, 0], [1, 0]];
      assert t1[1] + t1[3] == [1, 0, 0];
    }
    assert Sweep(t, 0, 2) == u;
    assert Rounds(t, 1, 2) == u;
    assert Collapse(u, 2, 1) == u;
  }

  /** The tresillo: three onsets among eight subdivisions. */
  lemma Tresillo()
    ensures Euclidean(3, 8, 0) == [1, 0, 0, 1, 0, 0, 1, 0]
  {
    TresilloFirstPhase();
    TresilloSecondPhase();
    var u: seq<Bucket> := [[1, 0, 0], [1, 0, 0], [1, 0]];
    assert Flatten(u) == [1, 0, 0, 1, 0, 0, 1, 0];
    assert Unrotated(3, 8) == Flatten(u);
  }

  /**
   * The nested loop the generator runs twice:
   * `for i in range(rounds): for j in range(w): s[j].extend(s.pop())`.
   * Every `s[j]` is in range and is never the bucket being popped.
   */
  method MergeRounds(s: seq<Bucket>, rounds: nat, w: nat) returns (t: seq<Bucket>)
    requires (rounds + 1) * w <= |s|
    ensures t == Rounds(s, rounds, w)
  {
    t := s;
    for i := 0 to rounds
      invariant |t| == |s| - i * w
      invariant Rounds(t, rounds - i, w) == Rounds(s, rounds, w)
    {
      assert (rounds - i + 1) * w <= |t| by {
        assert (rounds - i + 1) * w == (rounds + 1) * w - i * w;
      }
      ghost var r0 := t;
      for j := 0 to w
        invariant |t| == |r0| - j
        invariant Sweep(t, j, w) == Sweep(r0, 0, w)
      {
        t := t[..|t| - 1][j := t[j] + t[|t| - 1]];
      }
      assert (i + 1) * w == i * w + w;
    }
  }

  /** The generator, with the program's loops over a list of buckets. */
  method Euc(onsets: int, subdivisions: int, rotation: int) returns (pattern: seq<int>)
    ensures pattern == Euclidean(onsets, subdivisions, rotation)
  {
    var s := InitialBuckets(onsets, subdivisions);
    var a := Min(onsets, subdivisions - onsets);
    var b := Max(onsets, subdivisions - onsets);
    if a < 1 {
      return Flatten(s);
    }
    ghost var a0, b0 := a, b;
    RemainderRounds(b, a);
    s := MergeRounds(s, b / a, a);
    b := b % a;
    ghost var s1 := s;
    while b > 1
      invariant 0 <= b < a && |s| == a + b
      invariant Collapse(s, a, b) == Collapse(s1, a0, b0 % a0)
      decreases b
    {
      RemainderRounds(a, b);
      s := MergeRounds(s, a / b, b);
      var temp := b;
      b := a % b;
      a := temp;
    }
    var flat := Flatten(s);
    pattern := flat[SliceIndex(-rotation, |flat|)..] + flat[..SliceIndex(-rotation, |flat|)];
  }
}
