/** `generate_report`: cleaning, KPIs, chart, insight and PDF, in that
    order. The environment supplies what the program reads from outside:
    the two services and their keys, the formatted time of the run,
    whether the chart file exists when the PDF is assembled, and the text
    of the exception the PDF library raises on a character its core fonts
    cannot encode. */
module Pipeline {
  import opened Wrappers
  import opened Data
  import opened Kpi
  import opened Insight
  import opened Report
  import Format
  import Strings

  datatype Env = Env(cfg: Config, generated: string, chartExists: bool, encodingMessage: string)

  /** The failures the modelled steps raise: `df[col]` on a column the file
      does not have, and saving a PDF with a text outside Latin-1. */
  datatype PipelineError = KeyError(column: Column) | EncodingError(message: string)

  /** What a successful run produces: where the PDF is saved, the KPIs,
      the insight, and the entries of the PDF. */
  datatype Outcome = Outcome(pdfPath: string, kpis: Kpis, insight: Insight, document: seq<Entry>)

  /** The column name a `KeyError` quotes. */
  function ColumnName(c: Column): string {
    match c
    case Clicks => "clicks"
    case Impressions => "impressions"
    case AdSpend => "ad_spend"
    case Revenue => "revenue"
  }

  /** `str(e)`: the name of a missing column in quotes, or the library's
      message. */
  function ErrorText(e: PipelineError): string {
    match e
    case KeyError(c) => "'" + ColumnName(c) + "'"
    case EncodingError(message) => message
  }

  const OutputDir: string := "output"
  const ChartFileName: string := "chart.png"

  /** The position of a column in the order `compute_kpis` reads them. */
  function ColumnIndex(c: Column): (i: nat)
    ensures i < |NumericColumns| && NumericColumns[i] == c
  {
    match c
    case Clicks => 0
    case Impressions => 1
    case AdSpend => 2
    case Revenue => 3
  }

  /** The first column `compute_kpis` reads that the file lacks, if any. */
  function FirstMissing(cs: set<Column>): (r: Option<Column>)
    ensures r.None? <==> forall c: Column :: c in cs
    ensures r.Some? ==> r.value !in cs
    ensures r.Some? ==> forall i :: 0 <= i < ColumnIndex(r.value) ==> NumericColumns[i] in cs
  {
    if Clicks !in cs then Some(Clicks)
    else if Impressions !in cs then Some(Impressions)
    else if AdSpend !in cs then Some(AdSpend)
    else if Revenue !in cs then Some(Revenue)
    else
      assert forall c: Column :: c in cs by {
        forall c: Column ensures c in cs {
          assert c == Clicks || c == Impressions || c == AdSpend || c == Revenue;
        }
      }
      None
  }

  /** With all four columns present, cleaning leaves no empty cell. */
  lemma AllColumnsClean(t: Table)
    requires FirstMissing(t.columns).None?
    ensures forall i :: 0 <= i < |t.rows| ==> IsClean(FillRows(t.rows, t.columns)[i])
  {
    forall c | c in t.columns ensures c in {Clicks, Impressions, AdSpend, Revenue} {
      assert c == Clicks || c == Impressions || c == AdSpend || c == Revenue;
    }
    assert t.columns == {Clicks, Impressions, AdSpend, Revenue};
    CleaningFillsZeros(t.rows);
  }

  /** The dataset the KPIs and the trend are computed from. */
  function CleanDataset(t: Table): seq<Record>
    requires FirstMissing(t.columns).None?
  {
    AllColumnsClean(t);
    Dataset(FillRows(t.rows, t.columns))
  }

  /** The run of `generate_report` on a table, as a value: the first missing
      column fails it; otherwise the insight chain is asked for its text and
      the report is assembled. */
  function ReportPipeline(t: Table, env: Env): Result<Outcome, PipelineError> {
    match FirstMissing(t.columns)
    case Some(c) => Failure(KeyError(c))
    case None => Steps(CleanDataset(t), env)
  }

  /** The steps after cleaning, on the cleaned dataset. */
  function Steps(ds: seq<Record>, env: Env): Result<Outcome, PipelineError> {
    var k := ComputeKpis(ds);
    Assemble(k, InsightFor(k, ds, env.cfg), env)
  }

  /** The insight of a run on a file with all four columns. */
  function InsightOfRun(t: Table, env: Env): Insight
    requires FirstMissing(t.columns).None?
  {
    var ds := CleanDataset(t);
    InsightFor(ComputeKpis(ds), ds, env.cfg)
  }

  /** What the run produces from its KPIs and its insight: the PDF in the
      output directory, with the chart saved beside it, or the library's
      exception when the page does not encode, which by `ReportEncodable`
      is when the time of the run or the insight has a character outside
      Latin-1. */
  function Assemble(k: Kpis, insight: Insight, env: Env): Result<Outcome, PipelineError> {
    if Strings.Latin1(env.generated) && Strings.Latin1(insight.text) then
      Success(Outcome(JoinPath(OutputDir, ReportFileName), k, insight,
        ReportEntries(k, insight.text, env.generated, JoinPath(OutputDir, ChartFileName), env.chartExists)))
    else Failure(EncodingError(env.encodingMessage))
  }

  /** `compute_kpis(df)`: reads the four columns in order, so the first one
      missing raises; otherwise the KPIs of the cleaned rows. */
  method ComputeKpisOf(df: DataFrame, ghost t: Table) returns (r: Result<Kpis, PipelineError>)
    requires df.columns == t.columns && df.rows == FillRows(t.rows, t.columns)
    ensures FirstMissing(t.columns).Some? ==> r == Failure(KeyError(FirstMissing(t.columns).value))
    ensures FirstMissing(t.columns).None? ==> r == Success(ComputeKpis(CleanDataset(t)))
  {
    if Clicks !in df.columns {
      return Failure(KeyError(Clicks));
    }
    if Impressions !in df.columns {
      return Failure(KeyError(Impressions));
    }
    if AdSpend !in df.columns {
      return Failure(KeyError(AdSpend));
    }
    if Revenue !in df.columns {
      return Failure(KeyError(Revenue));
    }
    AllColumnsClean(t);
    r := Success(ComputeKpis(Dataset(df.rows)));
  }

  /** `create_visualization`: the chart is saved under the output directory
      and its path returned; the drawing itself is not modelled. */
  method CreateVisualization(outputDir: string) returns (chartPath: string)
    ensures chartPath == JoinPath(outputDir, ChartFileName)
    ensures Strings.EndsWith(chartPath, ".png")
  {
    chartPath := JoinPath(outputDir, ChartFileName);
    assert chartPath[|chartPath| - 4..] == ChartFileName[|ChartFileName| - 4..];
  }

  /** `generate_report`: the five steps in order; a failure stops the run. */
  method GenerateReport(t: Table, env: Env) returns (r: Result<Outcome, PipelineError>)
    ensures r == ReportPipeline(t, env)
  {
    var df := IngestAndClean(t);
    var kr := ComputeKpisOf(df, t);
    if kr.Failure? {
      return Failure(kr.error);
    }
    var kpis := kr.value;
    AllColumnsClean(t);
    var ds := Dataset(df.rows);
    assert ds == CleanDataset(t);
    r := ReportSteps(kpis, ds, env);
  }

  /** Steps 3 to 5 of `generate_report`: the chart, the insight and the PDF;
      the exception of a page that does not encode is passed on. */
  method ReportSteps(kpis: Kpis, ds: seq<Record>, env: Env) returns (r: Result<Outcome, PipelineError>)
    ensures r == Assemble(kpis, InsightFor(kpis, ds, env.cfg), env)
  {
    var chartPath := CreateVisualization(OutputDir);
    var insight := GenerateAiInsights(kpis, ds, env.cfg);
    var pdfPath, doc := CreatePdfReport(kpis, insight.text, env.generated, chartPath, env.chartExists, OutputDir);
    ReportEncodable(kpis, insight.text, env.generated, chartPath, env.chartExists);
    match pdfPath
    case None =>
      r := Failure(EncodingError(env.encodingMessage));
    case Some(path) =>
      r := Success(Outcome(path, kpis, insight, doc));
  }

  /** The run succeeds exactly when the file has all four numeric columns,
      the time of the run encodes in Latin-1, and so does the insight. */
  lemma PipelineSucceedsIff(t: Table, env: Env)
    ensures ReportPipeline(t, env).Success? <==>
      FirstMissing(t.columns).None? && Strings.Latin1(env.generated) && Strings.Latin1(InsightOfRun(t, env).text)
  {
  }

  /** A missing column always fails the run, and the failure names it. */
  lemma MissingColumnFails(t: Table, env: Env)
    requires FirstMissing(t.columns).Some?
    ensures ReportPipeline(t, env).Failure? && ReportPipeline(t, env).error.KeyError?
  {
  }

  /** A run that fails on a column names one the file lacks, and every
      column read before it is present. */
  lemma PipelineFailsOnFirstMissing(t: Table, env: Env, c: Column)
    requires ReportPipeline(t, env) == Failure(KeyError(c))
    ensures c !in t.columns
    ensures forall i :: 0 <= i < ColumnIndex(c) ==> NumericColumns[i] in t.columns
  {
    assert c == FirstMissing(t.columns).value;
  }

  /** A run on a file with all four columns can fail only on saving the PDF,
      with the library's message. */
  lemma ColumnsPresentFailure(t: Table, env: Env)
    requires FirstMissing(t.columns).None? && ReportPipeline(t, env).Failure?
    ensures ReportPipeline(t, env).error == EncodingError(env.encodingMessage)
  {
  }

  /** A count column of the file, empty cells read as 0. */
  function FileClicks(t: Table): seq<int> {
    seq(|t.rows|, i requires 0 <= i < |t.rows| => t.rows[i].clicks.GetOr(0))
  }

  function FileImpressions(t: Table): seq<int> {
    seq(|t.rows|, i requires 0 <= i < |t.rows| => t.rows[i].impressions.GetOr(0))
  }

  /** The cleaned counts are the file's counts with empty cells read as 0. */
  lemma CleanedCounts(t: Table)
    requires FirstMissing(t.columns).None?
    ensures ClicksOf(CleanDataset(t)) == FileClicks(t)
    ensures ImpressionsOf(CleanDataset(t)) == FileImpressions(t)
  {
    AllColumnsClean(t);
  }

  /** A saved report gives back the KPIs it was assembled from and prints
      the insight verbatim, in the fixed output file. */
  lemma AssembleFaithful(k: Kpis, insight: Insight, env: Env, o: Outcome)
    requires Assemble(k, insight, env) == Success(o)
    ensures o.kpis == k && o.insight == insight
    ensures ReadKpis(o.document) == Some(k)
    ensures |o.document| > 10 && o.document[10] == TextBlock(insight.text)
    ensures o.pdfPath == OutputDir + "/" + ReportFileName
  {
    ReportKpisRoundTrip(k, insight.text, env.generated, JoinPath(OutputDir, ChartFileName), env.chartExists);
    ReportLayout(k, insight.text, env.generated, JoinPath(OutputDir, ChartFileName), env.chartExists);
  }

  /** In a successful run the total clicks and impressions are the sums of
      the file's columns with empty cells counted as 0. */
  lemma PipelineTotals(t: Table, env: Env, o: Outcome)
    requires ReportPipeline(t, env) == Success(o)
    ensures o.kpis.totalClicks == SumInts(FileClicks(t))
    ensures o.kpis.totalImpressions == SumInts(FileImpressions(t))
  {
    PipelineOutcome(t, env, o);
    CleanedTotals(t);
  }

  /** The KPI totals of the cleaned file are the sums of its count columns,
      empty cells counted as 0. */
  lemma CleanedTotals(t: Table)
    requires FirstMissing(t.columns).None?
    ensures ComputeKpis(CleanDataset(t)).totalClicks == SumInts(FileClicks(t))
    ensures ComputeKpis(CleanDataset(t)).totalImpressions == SumInts(FileImpressions(t))
  {
    CleanedCounts(t);
  }

  /** In a successful run the KPI lines of the PDF give back the KPIs, the
      summary prints the insight verbatim, and the PDF is saved as
      `output/Insight_Report.pdf`. */
  lemma PipelineDocument(t: Table, env: Env, o: Outcome)
    requires ReportPipeline(t, env) == Success(o)
    ensures ReadKpis(o.document) == Some(o.kpis)
    ensures |o.document| > 10 && o.document[10] == TextBlock(o.insight.text)
    ensures o.pdfPath == OutputDir + "/" + ReportFileName
  {
    PipelineOutcome(t, env, o);
    var ds := CleanDataset(t);
    var k := ComputeKpis(ds);
    AssembleFaithful(k, InsightFor(k, ds, env.cfg), env, o);
  }

  /** A successful run's outcome is what the steps produce from the cleaned
      dataset. */
  lemma PipelineOutcome(t: Table, env: Env, o: Outcome)
    requires ReportPipeline(t, env) == Success(o)
    ensures FirstMissing(t.columns).None?
    ensures Steps(CleanDataset(t), env) == Success(o)
  {
  }

  /** The services decide only the insight: a missing column fails the run
      whatever they do, and two runs that both succeed have the same KPIs. */
  lemma ServicesKeepKpis(t: Table, env: Env, other: Config)
    ensures var r1, r2 := ReportPipeline(t, env), ReportPipeline(t, env.(cfg := other));
      (r1.Failure? && r1.error.KeyError? ==> r1 == r2) &&
      (r1.Success? && r2.Success? ==> r1.value.kpis == r2.value.kpis)
  {
  }

  /** Without keys the run succeeds on a file with all four columns when the
      time of the run encodes: the template always does. */
  lemma NoKeysSucceed(t: Table, env: Env)
    requires FirstMissing(t.columns).None? && Strings.Latin1(env.generated)
    requires !HasKey(Providers(env.cfg)[0]) && !HasKey(Providers(env.cfg)[1])
    ensures ReportPipeline(t, env).Success?
  {
    var ds := CleanDataset(t);
    var k := ComputeKpis(ds);
    NoKeysInsight(k, ds, env.cfg);
    TemplateLatin1(k, ClassifyTrend(ClicksOf(ds)));
    PipelineSucceedsIff(t, env);
  }

  /** With the OpenAI key set and all four columns present, a reply to the
      run's prompt that keeps a character outside Latin-1 once stripped makes
      the run fail when the PDF is saved. */
  lemma NonLatinReplyFails(t: Table, env: Env, reply: string)
    requires FirstMissing(t.columns).None? && HasKey(Providers(env.cfg)[0])
    requires env.cfg.openAi(Prompt(ComputeKpis(CleanDataset(t)), ClassifyTrend(ClicksOf(CleanDataset(t))))) == Replied(reply)
    requires !Strings.Latin1(Strings.Strip(reply))
    ensures ReportPipeline(t, env) == Failure(EncodingError(env.encodingMessage))
  {
    var ds := CleanDataset(t);
    var k := ComputeKpis(ds);
    var trend := ClassifyTrend(ClicksOf(ds));
    OpenAiAnswerWins(env.cfg, Prompt(k, trend), RuleBasedInsight(k, trend));
    PipelineSucceedsIff(t, env);
    ColumnsPresentFailure(t, env);
  }

  /** Without keys the summary is the rule-based template on the file's
      click trend, and nothing is called. */
  lemma NoKeysReport(t: Table, env: Env, o: Outcome)
    requires ReportPipeline(t, env) == Success(o)
    requires !HasKey(Providers(env.cfg)[0]) && !HasKey(Providers(env.cfg)[1])
    ensures o.insight == Insight(RuleBasedInsight(o.kpis, ClassifyTrend(FileClicks(t))), RuleBased, [])
  {
    PipelineOutcome(t, env, o);
    var ds := CleanDataset(t);
    var k := ComputeKpis(ds);
    CleanedCounts(t);
    NoKeysInsight(k, ds, env.cfg);
  }

  /** Without keys the insight is the template, and nothing is called. */
  lemma NoKeysInsight(k: Kpis, ds: seq<Record>, cfg: Config)
    requires !HasKey(Providers(cfg)[0]) && !HasKey(Providers(cfg)[1])
    ensures InsightFor(k, ds, cfg) == Insight(RuleBasedInsight(k, ClassifyTrend(ClicksOf(ds))), RuleBased, [])
  {
    var trend := ClassifyTrend(ClicksOf(ds));
    NoKeysUseTemplate(cfg, Prompt(k, trend), RuleBasedInsight(k, trend));
  }
}
