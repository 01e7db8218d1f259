/**
 * CameraPreview.getOptimalPreviewSize: among the sizes the camera offers,
 * the one whose height is closest to the view's, preferring those whose
 * aspect ratio is within 0.1 of the view's.
 */
module PreviewSize {
  import opened Wrappers
  import opened Android

  function Abs(x: int): (a: nat) {
    if x < 0 then -x else x
  }

  /** How a Java `(double) num / den` comes out when the operands are ints. */
  datatype Quotient = Finite | PositiveInfinity | NegativeInfinity | NotANumber

  function QuotientOf(num: int, den: int): (q: Quotient) {
    if den != 0 then Finite
    else if num > 0 then PositiveInfinity
    else if num < 0 then NegativeInfinity
    else NotANumber
  }

  /**
   * `!(Math.abs(a / b - c / d) > 0.1)` on doubles, with the quotients taken
   * as exact rationals. A NaN on either side makes the comparison false, and
   * so does infinity minus the same infinity (a NaN); any other infinite
   * difference exceeds the tolerance.
   */
  predicate WithinTolerance(a: int, b: int, c: int, d: int) {
    var p, q := QuotientOf(a, b), QuotientOf(c, d);
    if p == NotANumber || q == NotANumber then true
    else if p == Finite && q == Finite then 10 * Abs(a * d - c * b) <= Abs(b * d)
    else p == q
  }

  /** The candidate's height/width is within tolerance of the target h/w. */
  predicate RatioMatches(s: Size, w: int, h: int) {
    WithinTolerance(s.height, s.width, h, w)
  }

  /** `Math.abs(size.height - h)`. */
  function Distance(s: Size, h: int): (d: nat) {
    Abs(s.height - h)
  }

  /** A candidate of the ratio pass (`filtered`) or of the fallback pass. */
  predicate Candidate(s: Size, w: int, h: int, filtered: bool) {
    !filtered || RatioMatches(s, w, h)
  }

  predicate AnyRatioMatches(sizes: seq<Size>, w: int, h: int) {
    exists j :: 0 <= j < |sizes| && RatioMatches(sizes[j], w, h)
  }

  /**
   * Among the first n sizes, index k is a candidate, no candidate is
   * closer in height, and every candidate before k is strictly farther.
   */
  predicate FirstClosest(sizes: seq<Size>, n: int, k: int, w: int, h: int, filtered: bool) {
    0 <= k < n <= |sizes| &&
    Candidate(sizes[k], w, h, filtered) &&
    (forall j :: 0 <= j < n && Candidate(sizes[j], w, h, filtered) ==>
      Distance(sizes[k], h) <= Distance(sizes[j], h)) &&
    (forall j :: 0 <= j < k && Candidate(sizes[j], w, h, filtered) ==>
      Distance(sizes[k], h) < Distance(sizes[j], h))
  }

  /**
   * The index the selection should pick: the first height-closest size among
   * those matching the ratio when there is one, otherwise among all sizes.
   */
  predicate IsOptimal(sizes: seq<Size>, k: int, w: int, h: int) {
    FirstClosest(sizes, |sizes|, k, w, h, AnyRatioMatches(sizes, w, h))
  }

  /** `minDiff`, which starts at Double.MAX_VALUE: above every int difference. */
  datatype Bound = Exact(value: nat) | MaxValue

  predicate Below(d: nat, b: Bound) {
    b.MaxValue? || d < b.value
  }

  method GetOptimalPreviewSize(sizes: Option<seq<Size>>, w: int, h: int) returns (r: Option<Size>)
    ensures sizes.None? ==> r.None?
    ensures sizes.Some? ==> (r.Some? <==> |sizes.value| > 0)
    ensures r.Some? ==> exists k :: IsOptimal(sizes.value, k, w, h) && sizes.value[k] == r.value
  {
    if sizes.None? {
      return None;
    }
    var s := sizes.value;
    var optimal: Option<Size> := None;
    var minDiff := MaxValue;
    ghost var k := 0;
    for i := 0 to |s|
      invariant optimal.None? <==> minDiff.MaxValue?
      invariant optimal.None? <==> !exists j :: 0 <= j < i && RatioMatches(s[j], w, h)
      invariant optimal.Some? ==>
        FirstClosest(s, i, k, w, h, true) && optimal.value == s[k] && minDiff == Exact(Distance(s[k], h))
    {
      if RatioMatches(s[i], w, h) && Below(Distance(s[i], h), minDiff) {
        optimal := Some(s[i]);
        minDiff := Exact(Distance(s[i], h));
        k := i;
      }
    }
    if optimal.None? {
      minDiff := MaxValue;
      for i := 0 to |s|
        invariant optimal.None? <==> minDiff.MaxValue?
        invariant optimal.None? <==> i == 0
        invariant optimal.Some? ==>
          FirstClosest(s, i, k, w, h, false) && optimal.value == s[k] && minDiff == Exact(Distance(s[k], h))
      {
        if Below(Distance(s[i], h), minDiff) {
          optimal := Some(s[i]);
          minDiff := Exact(Distance(s[i], h));
          k := i;
        }
      }
    }
    r := optimal;
  }

  /** The selection is determined by its inputs: at most one index is optimal. */
  lemma OptimalUnique(sizes: seq<Size>, k1: int, k2: int, w: int, h: int)
    requires IsOptimal(sizes, k1, w, h) && IsOptimal(sizes, k2, w, h)
    ensures k1 == k2
  {
  }

  /** Some index up to n is first-closest among the first n candidates, if any is a candidate. */
  lemma {:induction false} FirstClosestExists(sizes: seq<Size>, n: int, w: int, h: int, filtered: bool)
    requires 0 <= n <= |sizes|
    requires exists j :: 0 <= j < n && Candidate(sizes[j], w, h, filtered)
    ensures exists k :: FirstClosest(sizes, n, k, w, h, filtered)
  {
    var m := n - 1;
    if !exists j :: 0 <= j < m && Candidate(sizes[j], w, h, filtered) {
      assert FirstClosest(sizes, n, m, w, h, filtered);
    } else {
      FirstClosestExists(sizes, m, w, h, filtered);
      var k :| FirstClosest(sizes, m, k, w, h, filtered);
      if Candidate(sizes[m], w, h, filtered) && Distance(sizes[m], h) < Distance(sizes[k], h) {
        assert FirstClosest(sizes, n, m, w, h, filtered);
      } else {
        assert FirstClosest(sizes, n, k, w, h, filtered);
      }
    }
  }

  /** Every non-empty list has exactly one optimal index. */
  lemma OptimalExists(sizes: seq<Size>, w: int, h: int)
    requires |sizes| > 0
    ensures exists k :: IsOptimal(sizes, k, w, h)
  {
    if AnyRatioMatches(sizes, w, h) {
      var j :| 0 <= j < |sizes| && RatioMatches(sizes[j], w, h);
      assert Candidate(sizes[j], w, h, true);
      FirstClosestExists(sizes, |sizes|, w, h, true);
      var k :| FirstClosest(sizes, |sizes|, k, w, h, true);
      assert IsOptimal(sizes, k, w, h);
    } else {
      assert Candidate(sizes[0], w, h, false);
      FirstClosestExists(sizes, |sizes|, w, h, false);
      var k :| FirstClosest(sizes, |sizes|, k, w, h, false);
      assert IsOptimal(sizes, k, w, h);
    }
  }

  /**
   * Equal distances go to the earlier size: for a square 200x200 view both
   * 200x190 and 200x210 are within the ratio tolerance and 10 away in
   * height, and the first is chosen.
   */
  lemma TieGoesToFirst()
    ensures IsOptimal([Size(200, 190), Size(200, 210)], 0, 200, 200)
    ensures !IsOptimal([Size(200, 190), Size(200, 210)], 1, 200, 200)
  {
    var sizes := [Size(200, 190), Size(200, 210)];
    assert RatioMatches(sizes[0], 200, 200) && RatioMatches(sizes[1], 200, 200);
    assert AnyRatioMatches(sizes, 200, 200);
  }

  /**
   * Landscape sizes for a portrait 1080x1920 view: none is within the ratio
   * tolerance, so the fallback picks the height-closest, 1920x1080.
   */
  lemma PortraitFallsBack()
    ensures !AnyRatioMatches([Size(640, 480), Size(1280, 720), Size(1920, 1080)], 1080, 1920)
    ensures IsOptimal([Size(640, 480), Size(1280, 720), Size(1920, 1080)], 2, 1080, 1920)
  {
    var sizes := [Size(640, 480), Size(1280, 720), Size(1920, 1080)];
    assert !RatioMatches(sizes[0], 1080, 1920);
    assert !RatioMatches(sizes[1], 1080, 1920);
    assert !RatioMatches(sizes[2], 1080, 1920);
  }
}
