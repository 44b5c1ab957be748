/** `create_pdf_report`: the report as the sequence of entries the FPDF
    document receives, in order, and a reader that gets the KPI figures
    back from the printed lines. */
module Report {
  import opened Wrappers
  import opened Kpi
  import Format
  import Strings
  import opened Wording

  /** What a document entry holds: a one-line `cell`, a wrapped
      `multi_cell` paragraph, or an `image`. */
  datatype Entry = TextLine(text: string) | TextBlock(text: string) | Picture(path: string)

  /** The FPDF document, reduced to the entries placed on it so far. */
  class Pdf {
    var entries: seq<Entry>

    /** `FPDF()` followed by `add_page()`: an empty page. */
    constructor ()
      ensures entries == []
    {
      entries := [];
    }

    /** `pdf.cell(..., text, ln=True)`: one line is appended. */
    method Cell(text: string)
      modifies this
      ensures entries == old(entries) + [TextLine(text)]
    {
      entries := entries + [TextLine(text)];
    }

    /** `pdf.multi_cell(..., text)`: one paragraph is appended. */
    method MultiCell(text: string)
      modifies this
      ensures entries == old(entries) + [TextBlock(text)]
    {
      entries := entries + [TextBlock(text)];
    }

    /** `pdf.image(path, ...)`: the picture is appended. */
    method Image(path: string)
      modifies this
      ensures entries == old(entries) + [Picture(path)]
    {
      entries := entries + [Picture(path)];
    }

    /** `pdf.output(path)`: the core fonts write text in Latin-1, so the page
        is saved exactly when each of its texts encodes, and the library
        raises otherwise. The page itself is left as it is. */
    method Output() returns (saved: bool)
      ensures saved == PageEncodable(entries)
    {
      saved := PageEncodable(entries);
    }
  }

  /** An entry the core fonts can write: its text, if it has one, encodes in
      Latin-1. A picture is read from its file and needs no encoding. */
  predicate Encodable(e: Entry) {
    match e
    case TextLine(t) => Strings.Latin1(t)
    case TextBlock(t) => Strings.Latin1(t)
    case Picture(_) => true
  }

  predicate PageEncodable(doc: seq<Entry>) {
    forall i :: 0 <= i < |doc| ==> Encodable(doc[i])
  }

  /** The six KPI lines: the two percentages, the two counts grouped with
      commas, the two amounts in dollars with two decimals. */
  function KpiLines(k: Kpis): seq<Entry> {
    [Line(CtrLabel, PercentText(k.ctr), "%"),
     Line(RoiLabel, PercentText(k.roi), "%"),
     Line(ClicksLabel, Format.Grouped(k.totalClicks), ""),
     Line(ImpressionsLabel, Format.Grouped(k.totalImpressions), ""),
     Line(SpendLabel, Format.Money(k.totalSpend), ""),
     Line(RevenueLabel, Format.Money(k.totalRevenue), "")]
  }

  /** A line made of a label, a printed value and its unit. */
  function Line(prefix: string, value: string, suffix: string): Entry {
    TextLine(prefix + value + suffix)
  }

  /** The report entries in the order `create_pdf_report` places them;
      `generated` is the formatted creation time, and the picture is
      placed only when the chart file exists. */
  function ReportEntries(k: Kpis, insight: string, generated: string, chartPath: string, chartExists: bool): seq<Entry> {
    Heading(generated) + KpiLines(k) + Summary(insight) + Chart(chartPath, chartExists)
  }

  function Heading(generated: string): seq<Entry> {
    [TextLine(Title), TextLine(GeneratedLabel + generated), TextLine(KpiHeading)]
  }

  function Summary(insight: string): seq<Entry> {
    [TextLine(SummaryHeading), TextBlock(insight), TextLine(ChartHeading)]
  }

  function Chart(chartPath: string, chartExists: bool): seq<Entry> {
    if chartExists then [Picture(chartPath)] else []
  }

  /** `os.path.join(dir, name)` for a relative file name. */
  function JoinPath(dir: string, name: string): (p: string)
    ensures Strings.EndsWith(p, name)
  {
    if dir == [] || dir[|dir| - 1] == '/' then dir + name else dir + "/" + name
  }

  const ReportFileName: string := "Insight_Report.pdf"

  /** `create_pdf_report`: places the entries one call at a time, saves the
      document, and returns where it is saved together with what it holds;
      no path when saving raises because a text does not encode. */
  method CreatePdfReport(k: Kpis, insight: string, generated: string, chartPath: string, chartExists: bool, outputDir: string)
    returns (pdfPath: Option<string>, doc: seq<Entry>)
    ensures doc == ReportEntries(k, insight, generated, chartPath, chartExists)
    ensures pdfPath == if PageEncodable(doc) then Some(JoinPath(outputDir, ReportFileName)) else None
  {
    var pdf := new Pdf();
    PlaceHeading(pdf, generated);
    PlaceKpis(pdf, k);
    PlaceSummary(pdf, insight);
    if chartExists {
      pdf.Image(chartPath);
    }
    doc := pdf.entries;
    var saved := pdf.Output();
    pdfPath := if saved then Some(JoinPath(outputDir, ReportFileName)) else None;
  }

  /** The title, the creation time and the KPI heading. */
  method PlaceHeading(pdf: Pdf, generated: string)
    modifies pdf
    ensures pdf.entries == old(pdf.entries) + Heading(generated)
  {
    pdf.Cell(Title);
    pdf.Cell(GeneratedLabel + generated);
    pdf.Cell(KpiHeading);
  }

  /** The six KPI lines, in dictionary order. */
  method PlaceKpis(pdf: Pdf, k: Kpis)
    modifies pdf
    ensures pdf.entries == old(pdf.entries) + KpiLines(k)
  {
    pdf.Cell(CtrLabel + PercentText(k.ctr) + "%");
    pdf.Cell(RoiLabel + PercentText(k.roi) + "%");
    pdf.Cell(ClicksLabel + Format.Grouped(k.totalClicks));
    pdf.Cell(ImpressionsLabel + Format.Grouped(k.totalImpressions));
    pdf.Cell(SpendLabel + Format.Money(k.totalSpend));
    pdf.Cell(RevenueLabel + Format.Money(k.totalRevenue));
    // The count and amount lines have no unit: `Line` joins them with "".
    assert ClicksLabel + Format.Grouped(k.totalClicks) + "" == ClicksLabel + Format.Grouped(k.totalClicks);
    assert ImpressionsLabel + Format.Grouped(k.totalImpressions) + "" == ImpressionsLabel + Format.Grouped(k.totalImpressions);
    assert SpendLabel + Format.Money(k.totalSpend) + "" == SpendLabel + Format.Money(k.totalSpend);
    assert RevenueLabel + Format.Money(k.totalRevenue) + "" == RevenueLabel + Format.Money(k.totalRevenue);
  }

  /** The summary heading, the insight paragraph and the chart heading. */
  method PlaceSummary(pdf: Pdf, insight: string)
    modifies pdf
    ensures pdf.entries == old(pdf.entries) + Summary(insight)
  {
    pdf.Cell(SummaryHeading);
    pdf.MultiCell(insight);
    pdf.Cell(ChartHeading);
  }

  /** The text of `s` between `prefix` and `suffix`, when it has both. */
  function Between(s: string, prefix: string, suffix: string): Option<string> {
    if |prefix| + |suffix| <= |s| && Strings.StartsWith(s, prefix) && Strings.EndsWith(s, suffix)
    then Some(s[|prefix|..|s| - |suffix|])
    else None
  }

  lemma BetweenJoin(prefix: string, v: string, suffix: string)
    ensures Between(prefix + v + suffix, prefix, suffix) == Some(v)
  {
    var s := prefix + v + suffix;
    assert s[..|prefix|] == prefix;
    assert s[|s| - |suffix|..] == suffix;
    assert s[|prefix|..|s| - |suffix|] == v;
  }

  /** The value printed on a KPI line after its label and before its unit. */
  function Field(e: Entry, prefix: string, suffix: string): Option<string> {
    match e
    case TextLine(t) => Between(t, prefix, suffix)
    case _ => None
  }

  /** Reads the six KPI figures back from a report's entries. */
  function ReadKpis(doc: seq<Entry>): Option<Kpis> {
    if |doc| < 9 then None else ReadKpiLines(doc[3..9])
  }

  /** Reads the six KPI figures back from the six KPI lines. */
  function ReadKpiLines(lines: seq<Entry>): Option<Kpis>
    requires |lines| == 6
  {
    var ctr := ReadPercent(Field(lines[0], CtrLabel, "%"));
    var roi := ReadPercent(Field(lines[1], RoiLabel, "%"));
    var clicks := ReadCount(Field(lines[2], ClicksLabel, ""));
    var impressions := ReadCount(Field(lines[3], ImpressionsLabel, ""));
    var spend := ReadMoney(Field(lines[4], SpendLabel, ""));
    var revenue := ReadMoney(Field(lines[5], RevenueLabel, ""));
    if ctr.Some? && roi.Some? && clicks.Some? && impressions.Some? && spend.Some? && revenue.Some?
    then Some(Kpis(ctr.value, roi.value, clicks.value, impressions.value, spend.value, revenue.value))
    else None
  }

  function ReadPercent(f: Option<string>): Option<Percent> {
    if f.Some? then ParsePercent(f.value) else None
  }

  function ReadCount(f: Option<string>): Option<int> {
    if f.Some? then Format.ParseGrouped(f.value) else None
  }

  function ReadMoney(f: Option<string>): Option<int> {
    if f.Some? then Format.ParseMoney(f.value) else None
  }

  /** A line's value is read back from between its label and its unit. */
  lemma FieldOfLine(prefix: string, v: string, suffix: string)
    ensures Field(Line(prefix, v, suffix), prefix, suffix) == Some(v)
  {
    BetweenJoin(prefix, v, suffix);
  }

  /** Each KPI line gives back its figure. */
  lemma ReadKpiLinesOf(k: Kpis)
    ensures ReadKpiLines(KpiLines(k)) == Some(k)
  {
    PercentRoundTrip(k.ctr);
    PercentRoundTrip(k.roi);
    Format.GroupedRoundTrip(k.totalClicks);
    Format.GroupedRoundTrip(k.totalImpressions);
    Format.MoneyRoundTrip(k.totalSpend);
    Format.MoneyRoundTrip(k.totalRevenue);
    ReadPrintedFigures(k, PercentText(k.ctr), PercentText(k.roi),
      Format.Grouped(k.totalClicks), Format.Grouped(k.totalImpressions),
      Format.Money(k.totalSpend), Format.Money(k.totalRevenue));
  }

  /** Lines whose printed values each read back as the matching figure give
      back all six figures. */
  lemma ReadPrintedFigures(k: Kpis, ctr: string, roi: string, clicks: string, impressions: string, spend: string, revenue: string)
    requires ParsePercent(ctr) == Some(k.ctr) && ParsePercent(roi) == Some(k.roi)
    requires Format.ParseGrouped(clicks) == Some(k.totalClicks)
    requires Format.ParseGrouped(impressions) == Some(k.totalImpressions)
    requires Format.ParseMoney(spend) == Some(k.totalSpend)
    requires Format.ParseMoney(revenue) == Some(k.totalRevenue)
    ensures ReadKpiLines([Line(CtrLabel, ctr, "%"), Line(RoiLabel, roi, "%"),
      Line(ClicksLabel, clicks, ""), Line(ImpressionsLabel, impressions, ""),
      Line(SpendLabel, spend, ""), Line(RevenueLabel, revenue, "")]) == Some(k)
  {
    FieldOfLine(CtrLabel, ctr, "%");
    FieldOfLine(RoiLabel, roi, "%");
    FieldOfLine(ClicksLabel, clicks, "");
    FieldOfLine(ImpressionsLabel, impressions, "");
    FieldOfLine(SpendLabel, spend, "");
    FieldOfLine(RevenueLabel, revenue, "");
  }

  /** The printed report loses none of the KPI figures: they are read back
      exactly from its lines, whatever the insight and the chart. */
  lemma ReportKpisRoundTrip(k: Kpis, insight: string, generated: string, chartPath: string, chartExists: bool)
    ensures ReadKpis(ReportEntries(k, insight, generated, chartPath, chartExists)) == Some(k)
  {
    var doc := ReportEntries(k, insight, generated, chartPath, chartExists);
    assert doc[3..9] == KpiLines(k);
    ReadKpiLinesOf(k);
  }

  /** The layout: twelve entries, or thirteen with the chart; the headings
      in place; the insight verbatim as the only paragraph; a picture
      exactly when the chart exists, and then as the last entry. */
  lemma ReportLayout(k: Kpis, insight: string, generated: string, chartPath: string, chartExists: bool)
    ensures var doc := ReportEntries(k, insight, generated, chartPath, chartExists);
      |doc| == (if chartExists then 13 else 12) &&
      doc[0] == TextLine(Title) && doc[1] == TextLine(GeneratedLabel + generated) &&
      doc[2] == TextLine(KpiHeading) && doc[9] == TextLine(SummaryHeading) &&
      doc[10] == TextBlock(insight) && doc[11] == TextLine(ChartHeading) &&
      (chartExists ==> doc[12] == Picture(chartPath))
  {
  }

  /** The insight is the only paragraph, and a picture is placed exactly when
      the chart exists. */
  lemma ReportKinds(k: Kpis, insight: string, generated: string, chartPath: string, chartExists: bool)
    ensures var doc := ReportEntries(k, insight, generated, chartPath, chartExists);
      (forall i :: 0 <= i < |doc| && doc[i].TextBlock? ==> i == 10) &&
      (forall i :: 0 <= i < |doc| && doc[i].Picture? ==> i == 12 && chartExists)
  {
    var doc := ReportEntries(k, insight, generated, chartPath, chartExists);
    var lines := KpiLines(k);
    forall i | 0 <= i < |doc| && !doc[i].TextLine?
      ensures (doc[i].TextBlock? ==> i == 10) && (doc[i].Picture? ==> i == 12 && chartExists)
    {
    }
  }

  /** A page encodes exactly when both of its parts do. */
  lemma PageEncodableAppend(a: seq<Entry>, b: seq<Entry>)
    ensures PageEncodable(a + b) <==> PageEncodable(a) && PageEncodable(b)
  {
    var doc := a + b;
    assert forall i :: 0 <= i < |a| ==> doc[i] == a[i];
    assert forall i :: 0 <= i < |b| ==> doc[|a| + i] == b[i];
  }

  /** The heading encodes exactly when the creation time does. */
  lemma HeadingEncodable(generated: string)
    ensures PageEncodable(Heading(generated)) <==> Strings.Latin1(generated)
  {
    TitleLatin1();
    GeneratedLabelLatin1();
    KpiHeadingLatin1();
    Strings.Latin1Append(GeneratedLabel, generated);
    assert Heading(generated)[1] == TextLine(GeneratedLabel + generated);
  }

  /** A KPI line encodes: a fixed label, printed figures and a unit. */
  lemma LineEncodable(prefix: string, value: string, suffix: string)
    requires Strings.Latin1(prefix) && Strings.Latin1(value) && Strings.Latin1(suffix)
    ensures Encodable(Line(prefix, value, suffix))
  {
    Strings.Latin1Join(prefix, value, suffix);
  }

  /** The six KPI lines always encode, whatever the figures. */
  lemma KpiLinesEncodable(k: Kpis)
    ensures PageEncodable(KpiLines(k))
  {
    assert Strings.Latin1("%") && Strings.Latin1("");
    CtrLabelLatin1();
    RoiLabelLatin1();
    ClicksLabelLatin1();
    ImpressionsLabelLatin1();
    SpendLabelLatin1();
    RevenueLabelLatin1();
    PercentTextLatin1(k.ctr);
    PercentTextLatin1(k.roi);
    Format.GroupedLatin1(k.totalClicks);
    Format.GroupedLatin1(k.totalImpressions);
    Format.MoneyLatin1(k.totalSpend);
    Format.MoneyLatin1(k.totalRevenue);
    LineEncodable(CtrLabel, PercentText(k.ctr), "%");
    LineEncodable(RoiLabel, PercentText(k.roi), "%");
    LineEncodable(ClicksLabel, Format.Grouped(k.totalClicks), "");
    LineEncodable(ImpressionsLabel, Format.Grouped(k.totalImpressions), "");
    LineEncodable(SpendLabel, Format.Money(k.totalSpend), "");
    LineEncodable(RevenueLabel, Format.Money(k.totalRevenue), "");
  }

  /** The summary encodes exactly when the insight does. */
  lemma SummaryEncodable(insight: string)
    ensures PageEncodable(Summary(insight)) <==> Strings.Latin1(insight)
  {
    SummaryHeadingLatin1();
    ChartHeadingLatin1();
    assert Summary(insight)[1] == TextBlock(insight);
  }

  /** The report can be saved exactly when the creation time and the insight
      encode in Latin-1: every other text on it is fixed wording or printed
      figures, and a chart picture needs no encoding. */
  lemma ReportEncodable(k: Kpis, insight: string, generated: string, chartPath: string, chartExists: bool)
    ensures PageEncodable(ReportEntries(k, insight, generated, chartPath, chartExists))
      <==> Strings.Latin1(generated) && Strings.Latin1(insight)
  {
    var head, lines, summary := Heading(generated), KpiLines(k), Summary(insight);
    var chart := Chart(chartPath, chartExists);
    HeadingEncodable(generated);
    KpiLinesEncodable(k);
    SummaryEncodable(insight);
    assert PageEncodable(chart);
    PageEncodableAppend(head, lines);
    PageEncodableAppend(head + lines, summary);
    PageEncodableAppend(head + lines + summary, chart);
  }
}
