/** The fixed wording of the prompt, of the report and of the rule-based
    summary; each piece the report prints is proved to be text that the
    Latin-1 encoding of FPDF's core fonts can write. */
module Wording {
  import opened Strings

  const PromptOpening: string :=
    "Analyze this advertising campaign performance data and provide a concise 3-4 sentence executive summary:\n\n"
  const CtrItem: string := "- CTR (Click-Through Rate): "
  const RoiItem: string := "- ROI (Return on Investment): "
  const ClicksItem: string := "- Total Clicks: "
  const ImpressionsItem: string := "- Total Impressions: "
  const SpendItem: string := "- Total Ad Spend: "
  const RevenueItem: string := "- Total Revenue: "
  const TrendItem: string := "- Trend: "
  const PromptClosing: string := "Provide actionable insights focusing on performance and recommendations."

  const Title: string := "Automated Insight Report"
  const GeneratedLabel: string := "Generated: "
  const KpiHeading: string := "Key Performance Indicators"
  const SummaryHeading: string := "Executive Summary"
  const ChartHeading: string := "Performance Visualization"

  const CtrLabel: string := "Click-Through Rate (CTR): "
  const RoiLabel: string := "Return on Investment (ROI): "
  const ClicksLabel: string := "Total Clicks: "
  const ImpressionsLabel: string := "Total Impressions: "
  const SpendLabel: string := "Total Ad Spend: "
  const RevenueLabel: string := "Total Revenue: "

  const CtrOpening: string := "The campaign achieved a CTR of "
  const RoiOpening: string := "% and an ROI of "
  const Indicating: string := "%, indicating "
  const Strong: string := "strong"
  const Moderate: string := "moderate"
  const PerformanceWith: string := " performance. With "
  const ClicksFrom: string := " total clicks from "
  const TrendIs: string := " impressions, the engagement trend is "
  const ImprovingWord: string := "improving"
  const DecliningWord: string := "declining"
  const RevenueIntro: string := " week over week. Total revenue of "
  const GeneratedFrom: string := " was generated from "
  const InAdSpend: string := " in ad spend. "

  const ScalingStart: string := "Continue scaling investment "
  const ScalingEnd: string := "to capitalize on positive momentum."
  const OptimizingStart: string := "Consider optimizing targeting "
  const OptimizingEnd: string := "and creative to improve engagement."
  /** The closing advice when the trend is improving. */
  const ContinueScaling: string := ScalingStart + ScalingEnd
  /** The closing advice when the trend is declining. */
  const ConsiderOptimizing: string := OptimizingStart + OptimizingEnd

  lemma TitleLatin1() ensures Latin1(Title) {}
  lemma GeneratedLabelLatin1() ensures Latin1(GeneratedLabel) {}
  lemma KpiHeadingLatin1() ensures Latin1(KpiHeading) {}
  lemma SummaryHeadingLatin1() ensures Latin1(SummaryHeading) {}
  lemma ChartHeadingLatin1() ensures Latin1(ChartHeading) {}
  lemma CtrLabelLatin1() ensures Latin1(CtrLabel) {}
  lemma RoiLabelLatin1() ensures Latin1(RoiLabel) {}
  lemma ClicksLabelLatin1() ensures Latin1(ClicksLabel) {}
  lemma ImpressionsLabelLatin1() ensures Latin1(ImpressionsLabel) {}
  lemma SpendLabelLatin1() ensures Latin1(SpendLabel) {}
  lemma RevenueLabelLatin1() ensures Latin1(RevenueLabel) {}
  lemma CtrOpeningLatin1() ensures Latin1(CtrOpening) {}
  lemma RoiOpeningLatin1() ensures Latin1(RoiOpening) {}
  lemma IndicatingLatin1() ensures Latin1(Indicating) {}
  lemma StrongLatin1() ensures Latin1(Strong) {}
  lemma ModerateLatin1() ensures Latin1(Moderate) {}
  lemma PerformanceWithLatin1() ensures Latin1(PerformanceWith) {}
  lemma ClicksFromLatin1() ensures Latin1(ClicksFrom) {}
  lemma TrendIsLatin1() ensures Latin1(TrendIs) {}
  lemma ImprovingWordLatin1() ensures Latin1(ImprovingWord) {}
  lemma DecliningWordLatin1() ensures Latin1(DecliningWord) {}
  lemma RevenueOfLatin1() ensures Latin1(RevenueIntro) {}
  lemma GeneratedFromLatin1() ensures Latin1(GeneratedFrom) {}
  lemma InAdSpendLatin1() ensures Latin1(InAdSpend) {}
  lemma ScalingStartLatin1() ensures Latin1(ScalingStart) {}
  lemma ScalingEndLatin1() ensures Latin1(ScalingEnd) {}
  lemma OptimizingStartLatin1() ensures Latin1(OptimizingStart) {}
  lemma OptimizingEndLatin1() ensures Latin1(OptimizingEnd) {}

  lemma ContinueScalingLatin1()
    ensures Latin1(ContinueScaling)
  {
    ScalingStartLatin1();
    ScalingEndLatin1();
    Latin1Append(ScalingStart, ScalingEnd);
  }

  lemma ConsiderOptimizingLatin1()
    ensures Latin1(ConsiderOptimizing)
  {
    OptimizingStartLatin1();
    OptimizingEndLatin1();
    Latin1Append(OptimizingStart, OptimizingEnd);
  }
}
