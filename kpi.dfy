/** `compute_kpis`: four column sums and two guarded percentages, rounded to
    two decimals the way Python's `round(x, 2)` rounds an exact value. */
module Kpi {
  import opened Wrappers
  import opened Data
  import Format
  import Strings

  function SumInts(xs: seq<int>): int {
    if xs == [] then 0 else SumInts(xs[..|xs| - 1]) + xs[|xs| - 1]
  }

  function SumReals(xs: seq<real>): real {
    if xs == [] then 0.0 else SumReals(xs[..|xs| - 1]) + xs[|xs| - 1]
  }

  lemma {:induction false} SumIntsAppend(a: seq<int>, b: seq<int>)
    ensures SumInts(a + b) == SumInts(a) + SumInts(b)
    decreases |b|
  {
    if b == [] {
      assert a + b == a;
    } else {
      assert (a + b)[..|a + b| - 1] == a + b[..|b| - 1];
      SumIntsAppend(a, b[..|b| - 1]);
    }
  }

  lemma {:induction false} SumRealsAppend(a: seq<real>, b: seq<real>)
    ensures SumReals(a + b) == SumReals(a) + SumReals(b)
    decreases |b|
  {
    if b == [] {
      assert a + b == a;
    } else {
      assert (a + b)[..|a + b| - 1] == a + b[..|b| - 1];
      SumRealsAppend(a, b[..|b| - 1]);
    }
  }

  /** A sum is monotone in its terms. */
  lemma {:induction false} SumIntsMonotone(xs: seq<int>, ys: seq<int>)
    requires |xs| == |ys|
    requires forall i :: 0 <= i < |xs| ==> xs[i] <= ys[i]
    ensures SumInts(xs) <= SumInts(ys)
  {
    if xs != [] {
      SumIntsMonotone(xs[..|xs| - 1], ys[..|ys| - 1]);
    }
  }

  /** The sum of `n` copies of `v`. */
  lemma {:induction false} SumIntsConstant(n: nat, v: int)
    ensures SumInts(seq(n, _ => v)) == n * v
  {
    if n > 0 {
      assert seq(n, _ => v)[..n - 1] == seq(n - 1, _ => v);
      SumIntsConstant(n - 1, v);
    }
  }

  lemma {:induction false} SumRealsConstant(n: nat, v: real)
    ensures SumReals(seq(n, _ => v)) == n as real * v
  {
    if n > 0 {
      assert seq(n, _ => v)[..n - 1] == seq(n - 1, _ => v);
      SumRealsConstant(n - 1, v);
    }
  }

  /** The columns of a dataset, in row order. */
  function ClicksOf(ds: seq<Record>): (xs: seq<int>)
    ensures |xs| == |ds| && forall i :: 0 <= i < |ds| ==> xs[i] == ds[i].clicks
  {
    seq(|ds|, i requires 0 <= i < |ds| => ds[i].clicks)
  }

  function ImpressionsOf(ds: seq<Record>): (xs: seq<int>)
    ensures |xs| == |ds| && forall i :: 0 <= i < |ds| ==> xs[i] == ds[i].impressions
  {
    seq(|ds|, i requires 0 <= i < |ds| => ds[i].impressions)
  }

  function SpendOf(ds: seq<Record>): (xs: seq<real>)
    ensures |xs| == |ds| && forall i :: 0 <= i < |ds| ==> xs[i] == ds[i].adSpend
  {
    seq(|ds|, i requires 0 <= i < |ds| => ds[i].adSpend)
  }

  function RevenueOf(ds: seq<Record>): (xs: seq<real>)
    ensures |xs| == |ds| && forall i :: 0 <= i < |ds| ==> xs[i] == ds[i].revenue
  {
    seq(|ds|, i requires 0 <= i < |ds| => ds[i].revenue)
  }

  /** `round(x, 2)` as a number of hundredths: the nearest one, ties to even. */
  function Round2(x: real): (c: int)
    ensures -0.5 <= x * 100.0 - c as real <= 0.5
    ensures (x * 100.0 - c as real == 0.5 || x * 100.0 - c as real == -0.5) ==> c % 2 == 0
  {
    var y := x * 100.0;
    var f := y.Floor;
    var d := y - f as real;
    if d < 0.5 then f
    else if d > 0.5 then f + 1
    else if f % 2 == 0 then f
    else f + 1
  }

  /** The two properties of `Round2` determine it: no other count of
      hundredths is as near, with ties going to the even one. */
  lemma Round2Unique(x: real, c: int)
    requires -0.5 <= x * 100.0 - c as real <= 0.5
    requires (x * 100.0 - c as real == 0.5 || x * 100.0 - c as real == -0.5) ==> c % 2 == 0
    ensures c == Round2(x)
  {
  }

  /** A value that already has two decimals is left as it is. */
  lemma Round2Exact(c: int)
    ensures Round2(c as real / 100.0) == c
  {
    assert (c as real / 100.0) * 100.0 == c as real;
  }

  /** A percentage as `compute_kpis` stores it: the integer 0 chosen by the
      zero-denominator guard, or a float rounded to `hundredths`/100. */
  datatype Percent = ZeroFallback | Rate(hundredths: int)

  /** `f"{p}"`: the integer 0 prints as `0`, a rounded float as its repr. */
  function PercentText(p: Percent): string {
    match p
    case ZeroFallback => "0"
    case Rate(h) => Format.DecimalRepr(h)
  }

  /** Reads a printed percentage back: `0` is the fallback, anything else a decimal. */
  function ParsePercent(s: string): Option<Percent> {
    if s == "0" then Some(ZeroFallback)
    else
      match Format.ParseDecimal(s)
      case Some(h) => Some(Rate(h))
      case None => None
  }

  /** The printed percentage tells the fallback and the rounded rate apart
      and loses nothing of either. */
  lemma PercentRoundTrip(p: Percent)
    ensures ParsePercent(PercentText(p)) == Some(p)
  {
    if p.Rate? {
      Format.DecimalReprRoundTrip(p.hundredths);
      assert PercentText(p) != "0" by {
        assert |Format.DecimalRepr(p.hundredths)| >= 3;
      }
    }
  }

  /** A printed percentage is plain ASCII. */
  lemma PercentTextLatin1(p: Percent)
    ensures Strings.Latin1(PercentText(p))
  {
    if p.Rate? {
      Format.DecimalReprLatin1(p.hundredths);
    }
  }

  /** Python's `p > bound` for a whole-number bound. */
  predicate Exceeds(p: Percent, bound: int) {
    match p
    case ZeroFallback => 0 > bound
    case Rate(h) => h > bound * 100
  }

  /** The KPI dictionary; spend and revenue are rounded to cents. */
  datatype Kpis = Kpis(
    ctr: Percent,
    roi: Percent,
    totalClicks: int,
    totalImpressions: int,
    totalSpend: int,
    totalRevenue: int)

  /** `round(num / den * 100, 2) if den > 0 else 0`. */
  function GuardedPercent(num: real, den: real): (p: Percent)
    ensures p == ZeroFallback <==> den <= 0.0
    ensures p.Rate? ==> -0.5 <= num / den * 10000.0 - p.hundredths as real <= 0.5
  {
    if den > 0.0 then Rate(Round2(num / den * 100.0)) else ZeroFallback
  }

  /** `compute_kpis`: the totals are the exact column sums (money to the
      nearest cent); CTR and ROI are within half a hundredth of the exact
      percentages, and are the fallback 0 exactly when their denominators
      are not positive, so nothing is ever divided by zero. */
  function ComputeKpis(ds: seq<Record>): (k: Kpis)
    ensures k.totalClicks == SumInts(ClicksOf(ds))
    ensures k.totalImpressions == SumInts(ImpressionsOf(ds))
    ensures -0.5 <= SumReals(SpendOf(ds)) * 100.0 - k.totalSpend as real <= 0.5
    ensures -0.5 <= SumReals(RevenueOf(ds)) * 100.0 - k.totalRevenue as real <= 0.5
    ensures k.ctr == ZeroFallback <==> SumInts(ImpressionsOf(ds)) <= 0
    ensures k.roi == ZeroFallback <==> SumReals(SpendOf(ds)) <= 0.0
    ensures k.ctr.Rate? ==> -0.5 <= SumInts(ClicksOf(ds)) as real / SumInts(ImpressionsOf(ds)) as real * 10000.0 - k.ctr.hundredths as real <= 0.5
    ensures k.roi.Rate? ==> -0.5 <= SumReals(RevenueOf(ds)) / SumReals(SpendOf(ds)) * 10000.0 - k.roi.hundredths as real <= 0.5
  {
    var clicks := SumInts(ClicksOf(ds));
    var impressions := SumInts(ImpressionsOf(ds));
    var spend := SumReals(SpendOf(ds));
    var revenue := SumReals(RevenueOf(ds));
    Kpis(
      ctr := GuardedPercent(clicks as real, impressions as real),
      roi := GuardedPercent(revenue, spend),
      totalClicks := clicks,
      totalImpressions := impressions,
      totalSpend := Round2(spend),
      totalRevenue := Round2(revenue))
  }

  /** Zero rows give all-zero KPIs, not an error. */
  lemma EmptyDatasetKpis()
    ensures ComputeKpis([]) == Kpis(ZeroFallback, ZeroFallback, 0, 0, 0, 0)
  {
    assert Round2(0.0) == 0;
  }

  /** A dataset without impressions has the fallback CTR 0. */
  lemma {:induction false} NoImpressionsNoCtr(ds: seq<Record>)
    requires forall i :: 0 <= i < |ds| ==> ds[i].impressions == 0
    ensures ComputeKpis(ds).ctr == ZeroFallback
  {
    SumIntsMonotone(ImpressionsOf(ds), seq(|ds|, _ => 0));
    SumIntsConstant(|ds|, 0);
  }

  /** A dataset without ad spend has the fallback ROI 0. */
  lemma NoSpendNoRoi(ds: seq<Record>)
    requires forall i :: 0 <= i < |ds| ==> ds[i].adSpend == 0.0
    ensures ComputeKpis(ds).roi == ZeroFallback
  {
    assert SpendOf(ds) == seq(|ds|, _ => 0.0);
    SumRealsConstant(|ds|, 0.0);
  }

  /** The column totals of two datasets run together are the sums of their totals. */
  lemma TotalsSplit(a: seq<Record>, b: seq<Record>)
    ensures SumInts(ClicksOf(a + b)) == SumInts(ClicksOf(a)) + SumInts(ClicksOf(b))
    ensures SumInts(ImpressionsOf(a + b)) == SumInts(ImpressionsOf(a)) + SumInts(ImpressionsOf(b))
    ensures SumReals(SpendOf(a + b)) == SumReals(SpendOf(a)) + SumReals(SpendOf(b))
    ensures SumReals(RevenueOf(a + b)) == SumReals(RevenueOf(a)) + SumReals(RevenueOf(b))
  {
    assert ClicksOf(a + b) == ClicksOf(a) + ClicksOf(b);
    assert ImpressionsOf(a + b) == ImpressionsOf(a) + ImpressionsOf(b);
    assert SpendOf(a + b) == SpendOf(a) + SpendOf(b);
    assert RevenueOf(a + b) == RevenueOf(a) + RevenueOf(b);
    SumIntsAppend(ClicksOf(a), ClicksOf(b));
    SumIntsAppend(ImpressionsOf(a), ImpressionsOf(b));
    SumRealsAppend(SpendOf(a), SpendOf(b));
    SumRealsAppend(RevenueOf(a), RevenueOf(b));
  }

  /** When no row has more clicks than impressions (and none is negative),
      the CTR lies between 0% and 100%. */
  lemma CtrWithinBounds(ds: seq<Record>)
    requires forall i :: 0 <= i < |ds| ==> 0 <= ds[i].clicks <= ds[i].impressions
    ensures ComputeKpis(ds).ctr.Rate? ==> 0 <= ComputeKpis(ds).ctr.hundredths <= 10000
  {
    var c, m := ClicksOf(ds), ImpressionsOf(ds);
    SumIntsMonotone(c, m);
    SumIntsMonotone(seq(|ds|, _ => 0), c);
    SumIntsConstant(|ds|, 0);
    var k := ComputeKpis(ds);
    if k.ctr.Rate? {
      RatioWithinUnit(SumInts(c) as real, SumInts(m) as real);
    }
  }

  lemma RatioWithinUnit(a: real, b: real)
    requires 0.0 <= a <= b && b > 0.0
    ensures 0.0 <= a / b * 10000.0 <= 10000.0
  {
    var q := a / b;
    assert q * b == a;
    assert (1.0 - q) * b == b - a;
  }
}
