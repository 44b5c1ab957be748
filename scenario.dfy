/** Worked examples of the whole computation: the fourteen-day campaign
    whose clicks double in the second week, and the rounding of a spend
    with three decimals. */
module Scenario {
  import opened Data
  import opened Kpi
  import opened Insight
  import Format
  import Wording

  /** Fourteen rows: 10 clicks a day for a week, then 20 a day for a week,
      with 100 impressions, 5.0 spent and 15.0 earned every day. */
  predicate DoublingCampaign(ds: seq<Record>) {
    |ds| == 14 &&
    (forall i :: 0 <= i < 14 ==> ds[i].impressions == 100 && ds[i].adSpend == 5.0 && ds[i].revenue == 15.0) &&
    (forall i :: 0 <= i < 7 ==> ds[i].clicks == 10) &&
    (forall i :: 7 <= i < 14 ==> ds[i].clicks == 20)
  }

  /** The campaign's KPIs: 210 clicks, 1,400 impressions, CTR 15%, $70.00
      spent, $210.00 earned, ROI 300%; the trend is improving. */
  lemma DoublingCampaignKpis(ds: seq<Record>)
    requires DoublingCampaign(ds)
    ensures ComputeKpis(ds) == Kpis(Rate(1500), Rate(30000), 210, 1400, 7000, 21000)
    ensures ClassifyTrend(ClicksOf(ds)) == Improving
  {
    var low, high := seq(7, _ => 10), seq(7, _ => 20);
    assert ClicksOf(ds) == low + high;
    SumIntsAppend(low, high);
    SumIntsConstant(7, 10);
    SumIntsConstant(7, 20);
    assert ImpressionsOf(ds) == seq(14, _ => 100);
    SumIntsConstant(14, 100);
    assert SpendOf(ds) == seq(14, _ => 5.0);
    SumRealsConstant(14, 5.0);
    assert RevenueOf(ds) == seq(14, _ => 15.0);
    SumRealsConstant(14, 15.0);
    Round2Exact(7000);
    Round2Exact(21000);
    Round2Exact(1500);
    Round2Exact(30000);
    assert FirstWeek(ClicksOf(ds)) == low;
    assert LastWeek(ClicksOf(ds)) == high;
  }

  /** The template for the campaign calls the performance "strong", since
      the ROI exceeds 200%, and ends with the scaling advice. */
  lemma DoublingCampaignTemplate(ds: seq<Record>)
    requires DoublingCampaign(ds)
    ensures var k := ComputeKpis(ds);
      var text := RuleBasedInsight(k, ClassifyTrend(ClicksOf(ds)));
      Strings.StartsWith(text, Lead(k) + Wording.Strong) && Strings.EndsWith(text, Wording.ContinueScaling)
  {
    DoublingCampaignKpis(ds);
    TemplateWording(ComputeKpis(ds), Improving);
  }

  /** A spend of 1234.567 is reported as `$1,234.57`. */
  lemma SpendRounding()
    ensures Format.Money(Round2(1234.567)) == "$1,234.57"
  {
    SpendRoundsUp();
    ThousandsAmount();
  }

  /** 123457 cents print as `1,234.57`. */
  lemma ThousandsAmount()
    ensures Format.Amount(123457) == "1,234.57"
  {
    FourDigits(1234);
    var ds := Format.Digits(1234);
    GroupFour(ds);
    assert ds == "1234";
    assert Format.TwoDigits(57) == "57";
  }

  /** The digits of a four-digit number. */
  lemma FourDigits(n: nat)
    requires 1000 <= n < 10000
    ensures Format.Digits(n) == [Format.DigitChar(n / 1000), Format.DigitChar(n / 100 % 10), Format.DigitChar(n / 10 % 10), Format.DigitChar(n % 10)]
  {
    var c, b, a := n / 10, n / 100, n / 1000;
    assert c / 10 == b && b / 10 == a;
    assert Format.Digits(a) == [Format.DigitChar(a)];
    assert Format.Digits(b) == Format.Digits(a) + [Format.DigitChar(b % 10)];
    assert Format.Digits(c) == Format.Digits(b) + [Format.DigitChar(c % 10)];
    assert Format.Digits(n) == Format.Digits(c) + [Format.DigitChar(n % 10)];
  }

  /** Four digits are grouped as one, a comma, and three. */
  lemma GroupFour(ds: string)
    requires |ds| == 4
    ensures Format.Group(ds) == ds[..1] + "," + ds[1..]
  {
  }

  /** 1234.567 is 123456.7 hundredths, so it rounds up to 123457. */
  lemma SpendRoundsUp()
    ensures Round2(1234.567) == 123457
  {
    assert 1234.567 * 100.0 == 123456.7;
  }

  /** The campaign's CTR prints as `15.0`. */
  lemma CampaignCtrPrinted()
    ensures PercentText(Rate(1500)) == "15.0"
  {
  }

  /** The campaign's ROI prints as `300.0`. */
  lemma CampaignRoiPrinted()
    ensures PercentText(Rate(30000)) == "300.0"
  {
  }
}
