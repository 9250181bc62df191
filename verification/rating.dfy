/** The average rating of a user, kept in hundredths: `BigDecimal(sum).divide(BigDecimal(count),
    2, HALF_UP)` of integer ratings is an exact operation on integers once the result is scaled
    by 100. */
module Ratings {

  /** num / den rounded to the nearest integer, a half rounded away from zero (HALF_UP). */
  function RoundHalfUpDiv(num: int, den: int): int
    requires den > 0
  {
    if num >= 0 then (2 * num + den) / (2 * den) else -((2 * -num + den) / (2 * den))
  }

  /** The rounded quotient lies within half a divisor of the exact one; an exact half goes
      away from zero. */
  lemma RoundHalfUpBounds(num: int, den: int)
    requires den > 0
    ensures var r := RoundHalfUpDiv(num, den);
      (num >= 0 ==> -den <= 2 * (num - r * den) < den) && (num < 0 ==> -den < 2 * (num - r * den) <= den)
  {
    if num >= 0 {
      DivBounds(2 * num + den, 2 * den);
    } else {
      DivBounds(2 * -num + den, 2 * den);
    }
  }

  /** The quotient of Euclidean division lies within one divisor of the dividend. */
  lemma DivBounds(a: int, b: int)
    requires a >= 0 && b > 0
    ensures (a / b) * b <= a < (a / b) * b + b
  {
  }

  /** The rounding is determined by its bounds: no other integer lies within half a divisor. */
  lemma RoundHalfUpUnique(num: int, den: int, r: int)
    requires den > 0 && num >= 0
    requires -den <= 2 * (num - r * den) < den
    ensures r == RoundHalfUpDiv(num, den)
  {
    var s := RoundHalfUpDiv(num, den);
    RoundHalfUpBounds(num, den);
    if r < s {
      MulLe(r + 1, s, den);
    } else if r > s {
      MulLe(s + 1, r, den);
    }
  }

  lemma MulLe(a: int, b: int, c: int)
    requires a <= b && c > 0
    ensures a * c <= b * c
  {
  }

  /** The sum of a list of ratings. */
  function Sum(ratings: seq<int>): int
  {
    if ratings == [] then 0 else Sum(ratings[..|ratings| - 1]) + ratings[|ratings| - 1]
  }

  /** The rating written to a profile, in hundredths: the mean of the ratings rounded half up
      to two decimals, or 0 when there are none. */
  function UserRating(ratings: seq<int>): (r: int)
    ensures ratings == [] ==> r == 0
  {
    if |ratings| == 0 then 0 else RoundHalfUpDiv(100 * Sum(ratings), |ratings|)
  }

  /** Ratings between lo and hi sum to between |ratings|*lo and |ratings|*hi. */
  lemma {:induction false} SumBounds(ratings: seq<int>, lo: int, hi: int)
    requires forall i :: 0 <= i < |ratings| ==> lo <= ratings[i] <= hi
    ensures |ratings| * lo <= Sum(ratings) <= |ratings| * hi
  {
    if ratings != [] {
      var n, init := |ratings|, ratings[..|ratings| - 1];
      SumBounds(init, lo, hi);
      assert Sum(ratings) == Sum(init) + ratings[n - 1];
      assert (n - 1) * lo + lo == n * lo && (n - 1) * hi + hi == n * hi;
    }
  }

  /** With at least one rating, all of them between 1 and 5, the mean lies in [1.00, 5.00]. */
  lemma UserRatingInRange(ratings: seq<int>)
    requires |ratings| >= 1
    requires forall i :: 0 <= i < |ratings| ==> 1 <= ratings[i] <= 5
    ensures 100 <= UserRating(ratings) <= 500
  {
    var n := |ratings|;
    SumBounds(ratings, 1, 5);
    var r := UserRating(ratings);
    RoundHalfUpBounds(100 * Sum(ratings), n);
    if r < 100 {
      MulLe(r, 99, n);
    } else if r > 500 {
      MulLe(501, r, n);
    }
  }

  /** A list of equal ratings has exactly that rating as its mean. */
  lemma {:induction false} UniformRatings(ratings: seq<int>, v: int)
    requires |ratings| >= 1
    requires forall i :: 0 <= i < |ratings| ==> ratings[i] == v
    ensures UserRating(ratings) == 100 * v
  {
    SumBounds(ratings, v, v);
    RoundHalfUpUniqueSigned(100 * Sum(ratings), |ratings|, 100 * v);
  }

  /** An exact quotient is its own rounding, whatever the sign. */
  lemma RoundHalfUpUniqueSigned(num: int, den: int, r: int)
    requires den > 0 && num == r * den
    ensures RoundHalfUpDiv(num, den) == r
  {
    if num >= 0 {
      RoundHalfUpUnique(num, den, r);
    } else {
      assert -num == (-r) * den;
      RoundHalfUpUnique(-num, den, -r);
    }
  }

  lemma {:induction false} SumAppend(a: seq<int>, b: seq<int>)
    ensures Sum(a + b) == Sum(a) + Sum(b)
    decreases |b|
  {
    if b != [] {
      assert (a + b)[..|a + b| - 1] == a + b[..|b| - 1];
      SumAppend(a, b[..|b| - 1]);
    } else {
      assert a + b == a;
    }
  }

  /** Removing one rating from anywhere takes exactly that rating off the sum. */
  lemma SumRemove(s: seq<int>, j: int)
    requires 0 <= j < |s|
    ensures Sum(s) == Sum(s[..j] + s[j + 1..]) + s[j]
  {
    var before, x, after := s[..j], s[j], s[j + 1..];
    assert s == before + ([x] + after);
    SumAppend(before, [x] + after);
    SumAppend([x], after);
    SumAppend(before, after);
    assert Sum([x]) == x by { assert [x][..0] == []; }
  }

  /** The sum, and so the rating, does not depend on the order in which the reviews arrive. */
  lemma {:induction false} SumPermutation(a: seq<int>, b: seq<int>)
    requires multiset(a) == multiset(b)
    ensures Sum(a) == Sum(b)
    decreases |a|
  {
    if a == [] {
      assert |b| == |multiset(b)| == 0;
    } else {
      var x := a[|a| - 1];
      var a' := a[..|a| - 1];
      assert a == a' + [x];
      assert x in multiset(b);
      var j :| 0 <= j < |b| && b[j] == x;
      var b' := b[..j] + b[j + 1..];
      MultisetRemove(b, j);
      assert multiset(a) == multiset(a') + multiset{x};
      SumPermutation(a', b');
      SumRemove(b, j);
    }
  }

  lemma MultisetRemove(s: seq<int>, j: int)
    requires 0 <= j < |s|
    ensures multiset(s[..j] + s[j + 1..]) == multiset(s) - multiset{s[j]}
  {
    assert s == s[..j] + [s[j]] + s[j + 1..];
  }

  lemma UserRatingPermutation(a: seq<int>, b: seq<int>)
    requires multiset(a) == multiset(b)
    ensures UserRating(a) == UserRating(b)
  {
    SumPermutation(a, b);
    assert |a| == |multiset(a)| == |multiset(b)| == |b|;
  }

  /** 5, 3 and 4 stars give 4.00; 5 and 4 give 4.50; 1, 2 and 2 give 1.67; 2, 2 and 3 give 2.33. */
  lemma RatingExamples()
    ensures UserRating([5, 3, 4]) == 400
    ensures UserRating([5, 4]) == 450
    ensures UserRating([1, 2, 2]) == 167
    ensures UserRating([2, 2, 3]) == 233
  {
    assert Sum([5, 3, 4]) == 12 by { assert [5, 3, 4][..2] == [5, 3]; assert [5, 3][..1] == [5]; }
    assert Sum([5, 4]) == 9 by { assert [5, 4][..1] == [5]; }
    assert Sum([1, 2, 2]) == 5 by { assert [1, 2, 2][..2] == [1, 2]; assert [1, 2][..1] == [1]; }
    assert Sum([2, 2, 3]) == 7 by { assert [2, 2, 3][..2] == [2, 2]; assert [2, 2][..1] == [2]; }
    RoundHalfUpUnique(1200, 3, 400);
    RoundHalfUpUnique(900, 2, 450);
    RoundHalfUpUnique(500, 3, 167);
    RoundHalfUpUnique(700, 3, 233);
  }

  /** A negative half is rounded away from zero: -2.5 becomes -3. */
  lemma NegativeHalfRoundsAway()
    ensures RoundHalfUpDiv(-5, 2) == -3 && RoundHalfUpDiv(5, 2) == 3
  {
  }
}
