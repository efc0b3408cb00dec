/**
  The dashboard's aggregate figures: total downloads, number of materials and the user's
  average rating.
 */
module Dashboard {
  import opened Wrappers
  import opened Types
  import opened Seqs
  import MockData

  function Downloads(m: Material): nat { m.downloads }

  /** `reduce` over the materials, starting from 0. */
  function TotalDownloads(ms: seq<Material>): (total: nat)
    ensures total == SumBy(ms, Downloads)
    ensures |ms| == 0 ==> total == 0
  {
    FoldSum(ms, Downloads, 0)
  }

  /** `materials.length`: the same count as a total that adds one per material. */
  function TotalMaterials(ms: seq<Material>): (n: nat)
    ensures n == SumBy(ms, One)
    ensures n == 0 <==> ms == []
  {
    CountIsSumOfOnes(ms);
    |ms|
  }

  function One(m: Material): nat { 1 }

  /** Adding one per element counts the elements. */
  lemma {:induction false} CountIsSumOfOnes(ms: seq<Material>)
    ensures SumBy(ms, One) == |ms|
    decreases |ms|
  {
    if |ms| > 0 {
      CountIsSumOfOnes(ms[1..]);
    }
  }

  /** The user's rating, or 0 when the user has none. */
  function AverageRating(u: User): (r: real)
    ensures u.rating.Some? ==> r == u.rating.value
    ensures u.rating.None? ==> r == 0.0
  {
    u.rating.GetOr(0.0)
  }

  /** The fallback is JavaScript's `user.rating || 0`: an absent rating and a zero one both give 0. */
  lemma AverageRatingIsOrFallback(u: User)
    ensures AverageRating(u) == RealOr(u.rating, 0.0)
  {
  }

  /** Totals add up over a split of the list. */
  lemma TotalsAdditive(a: seq<Material>, b: seq<Material>)
    ensures TotalDownloads(a + b) == TotalDownloads(a) + TotalDownloads(b)
    ensures TotalMaterials(a + b) == TotalMaterials(a) + TotalMaterials(b)
  {
    SumByAppend(a, b, Downloads);
  }

  /** Every material contributes its downloads: the total bounds each one from above. */
  lemma {:induction false} TotalBoundsEach(ms: seq<Material>, i: nat)
    requires i < |ms|
    ensures ms[i].downloads <= TotalDownloads(ms)
    decreases |ms|
  {
    if i > 0 {
      TotalBoundsEach(ms[1..], i - 1);
      assert ms[1..][i - 1] == ms[i];
    }
  }

  /** The mock dashboard shows 453 downloads over 3 materials and a 4.8 rating. */
  lemma MockFigures()
    ensures TotalDownloads(MockData.DashboardMaterials) == 453
    ensures TotalMaterials(MockData.DashboardMaterials) == 3
    ensures AverageRating(MockData.DashboardUser) == 4.8
  {
    var ms := MockData.DashboardMaterials;
    assert ms[0].downloads == 156 && ms[1].downloads == 87 && ms[2].downloads == 210;
    assert SumBy(ms[2..], Downloads) == 210;
    assert SumBy(ms[1..], Downloads) == 87 + 210;
  }
}
