# InsightX report engine, modelled in Dafny

InsightX reads an advertising-campaign CSV, cleans it, computes six KPIs
(CTR, ROI, total clicks, total impressions, total ad spend, total revenue),
classifies the click trend, asks OpenAI and then Gemini for an executive
summary (falling back to a rule-based template), and lays everything out in
a one-page PDF. A small Flask server accepts the CSV upload, checks its
name, and runs the pipeline.

The model covers that core:

- `Data`: the table `pd.read_csv` hands over (the columns the file has, and the rows with
  optional numeric cells), a `DataFrame` class whose `FillNa` overwrites one column in
  place, and `IngestAndClean`, the loop that fills nulls with 0 in the columns that exist.
- `Kpi`: the sums, Python's `round(x, 2)` (round half to even on hundredths), the
  guarded CTR and ROI ratios with their `0` fallback, and `ComputeKpis`.
- `Format`: `{:,}` on integers, `${:,.2f}` on amounts, and the `repr` of a float that
  `round(x, 2)` produced (`15.0`, `0.5`, `3.05`). Each formatter has a parser that reads
  it back.
- `Wording`: the fixed texts of the prompt, the report and the template. Each text the
  report prints is proved to encode in Latin-1.
- `Insight`: the week-over-week trend, the prompt, the rule-based template, and the
  provider chain. The chain `Chain` works over any list of services. `AskServices` tries
  OpenAI, then Gemini, and is proved equal to the general `Chain`.
- `Report`: a `Pdf` class that records the entries placed on the page.
  `CreatePdfReport` places them in the order of `create_pdf_report`, then saves the
  page. FPDF's core Arial font writes text in Latin-1, so saving raises when a text has
  a character outside it. Parsers read the six KPI figures back from the page.
- `Pipeline`: `generate_report` as a method, proved equal to the specification function
  `ReportPipeline`. That function raises `KeyError` on the first missing numeric column.
  Otherwise it cleans, computes, asks and lays out, and it fails when the page cannot
  be saved.
- `Server`: `allowed_file`, `ALLOWED_EXTENSIONS` and the guard chain of `upload_file`.
- `Scenario`: a worked two-week campaign, with its KPIs, trend and template wording,
  and a few concrete printed figures.

These inputs are parameters of the model:

- the environment keys;
- the two services' replies, as functions from prompt to reply or raised exception;
- the formatted creation time;
- whether the chart file exists;
- the message of the exception the PDF library raises on a character it cannot encode;
- the outcome of reading the uploaded file.

Behaviours of the code worth stating:

- Both ratios are guarded by `> 0`, so a negative total also gives the `0` fallback.
- A service's reply is returned after `.strip()` (main.py:152 and main.py:173) with no
  check that anything is left. A reply of only whitespace therefore gives an empty
  insight (`Insight.BlankReplyGivesEmptyInsight`).
- Cleaning skips numeric columns that are absent (`if col in df.columns`). Then
  `compute_kpis` raises `KeyError` on the first one it reads, in the order clicks,
  impressions, ad_spend, revenue.
- The template is built only after both services fail or are skipped, and it takes no
  input from them, so passing it to the chain as a ready value changes nothing.
- A reply with a character outside Latin-1, such as a curly quote or an emoji, is
  printed as the summary, and saving the PDF then raises. The run fails, and the
  upload answers 500 (`Pipeline.NonLatinReplyFails`, `Server.UnencodableUpload`). The
  template never causes this (`Insight.TemplateLatin1`).

## Model

| member | source | states |
|---|---|---|
| Strings.Strip | AI-14-cmd/Hackathon-GT/main.py:152 | definition of `str.strip()` over Python's whitespace set; its properties are `Strings.StripIsTrimmedSlice`, `Strings.StripIdempotent`, `Strings.BlankStripsToEmpty` and `Strings.StripLatin1` |
| Strings.StripIsTrimmedSlice | AI-14-cmd/Hackathon-GT/main.py:152 | `.strip()` returns a contiguous slice of the reply; everything cut off around it is whitespace, and the result neither starts nor ends with whitespace |
| Strings.StripIdempotent | AI-14-cmd/Hackathon-GT/main.py:173 | stripping the reply a second time changes nothing |
| Strings.BlankStripsToEmpty | AI-14-cmd/Hackathon-GT/main.py:152 | a reply made only of whitespace strips to the empty string |
| Strings.StripLeadingIsSuffix | AI-14-cmd/Hackathon-GT/main.py:152 | the leading strip removes exactly a run of whitespace from the front |
| Strings.StripTrailingIsPrefix | AI-14-cmd/Hackathon-GT/main.py:152 | the trailing strip removes exactly a run of whitespace from the end |
| Strings.Lower | AI-14-cmd/Hackathon-GT/server.py:23 | `.lower()` keeps the length and lowers each character on its own |
| Strings.LastIndexOf | AI-14-cmd/Hackathon-GT/server.py:23 | absent exactly when the character does not occur; otherwise an occurrence with no later one |
| Strings.LastIndexOfJoin | AI-14-cmd/Hackathon-GT/server.py:23 | in `a + sep + b` with no `sep` in `b`, the last separator is the one right after `a` |
| Strings.RSplitOnce | AI-14-cmd/Hackathon-GT/server.py:23 | `rsplit('.', 1)` gives the whole name when there is no dot; otherwise two parts that rejoin around the dot into the name, with no dot in the second part |
| Strings.Latin1Append | AI-14-cmd/Hackathon-GT/main.py:248 | a joined text encodes in Latin-1 exactly when both parts do |
| Strings.Latin1Join | AI-14-cmd/Hackathon-GT/main.py:248 | three encodable texts join into an encodable one |
| Strings.StripLatin1 | AI-14-cmd/Hackathon-GT/main.py:152 | stripping keeps a text encodable |
| Format.Grouped | AI-14-cmd/Hackathon-GT/main.py:222-223 | `{:,}` of an integer is never empty; its other properties are `Format.GroupedRoundTrip`, `Format.GroupCommaPositions` and `Format.GroupedLatin1` |
| Format.Digits | AI-14-cmd/Hackathon-GT/main.py:222 | `str(n)` is non-empty, all digits, with no leading zero |
| Format.ValueOfDigits | AI-14-cmd/Hackathon-GT/main.py:222 | the digits of `n` denote `n` |
| Format.Group | AI-14-cmd/Hackathon-GT/main.py:222-223 | grouping adds one comma per full group of three digits and keeps the leading digit |
| Format.RemoveCommasGroup | AI-14-cmd/Hackathon-GT/main.py:222-223 | deleting the commas of a grouped number gives back its digits |
| Format.GroupCommaPositions | AI-14-cmd/Hackathon-GT/main.py:222-223 | the commas sit exactly every four characters from the right, with digits everywhere else |
| Format.GroupedRoundTrip | AI-14-cmd/Hackathon-GT/main.py:222-223 | every integer is read back from its `{:,}` text |
| Format.TwoDigits | AI-14-cmd/Hackathon-GT/main.py:224-225 | the `.2f` fraction is two digits denoting the cents |
| Format.Money | AI-14-cmd/Hackathon-GT/main.py:224-225 | `${:,.2f}` starts with `$` and ends with a point and two digits |
| Format.Amount | AI-14-cmd/Hackathon-GT/main.py:224-225 | the unsigned part starts with a digit and ends with a point and two digits |
| Format.ParseAmountOf | AI-14-cmd/Hackathon-GT/main.py:224-225 | an unsigned amount is read back in cents |
| Format.MoneyRoundTrip | AI-14-cmd/Hackathon-GT/main.py:224-225 | every whole number of cents, negative included, is read back from its `${:,.2f}` text |
| Format.Fraction | AI-14-cmd/Hackathon-GT/main.py:220-221 | the repr fraction has one or two digits, and a second digit is never `0` |
| Format.DecimalRepr | AI-14-cmd/Hackathon-GT/main.py:220-221 | the repr of a rounded float has at least three characters |
| Format.DecimalReprRoundTrip | AI-14-cmd/Hackathon-GT/main.py:220-221 | the hundredths of a rounded rate are read back from its repr |
| Format.GroupLatin1 | AI-14-cmd/Hackathon-GT/main.py:222-223 | grouped digits encode in Latin-1 |
| Format.GroupedLatin1 | AI-14-cmd/Hackathon-GT/main.py:222-223 | a `{:,}` count encodes in Latin-1 |
| Format.MoneyLatin1 | AI-14-cmd/Hackathon-GT/main.py:224-225 | a `${:,.2f}` amount encodes in Latin-1 |
| Format.DecimalReprLatin1 | AI-14-cmd/Hackathon-GT/main.py:220-221 | the repr of a rounded rate encodes in Latin-1 |
| Kpi.PercentText | AI-14-cmd/Hackathon-GT/main.py:220-221 | definition of `f"{kpis['ctr']}"`: the int fallback prints `0`, a rounded float its repr; its properties are `Kpi.PercentRoundTrip` and `Kpi.PercentTextLatin1` |
| Kpi.Exceeds | AI-14-cmd/Hackathon-GT/main.py:181 | definition of `kpis['roi'] > 200` on the fallback or the hundredths; its properties are in `Insight.TemplateWording` |
| Kpi.Round2 | AI-14-cmd/Hackathon-GT/main.py:65-70 | `round(x, 2)` is within half a cent of `x`, and on a tie it is even |
| Kpi.Round2Unique | AI-14-cmd/Hackathon-GT/main.py:65-70 | those two properties determine the rounded value |
| Kpi.Round2Exact | AI-14-cmd/Hackathon-GT/main.py:69-70 | an amount already in whole cents rounds to itself |
| Kpi.GuardedPercent | AI-14-cmd/Hackathon-GT/main.py:61-62 | the `0` fallback is taken exactly when the denominator is not positive; otherwise the rate is within half a hundredth of `num / den * 100` |
| Kpi.PercentRoundTrip | AI-14-cmd/Hackathon-GT/main.py:220-221 | the printed CTR or ROI tells the int `0` fallback from a rounded rate and loses neither |
| Kpi.ComputeKpis | AI-14-cmd/Hackathon-GT/main.py:55-71 | the counts are the column sums; spend and revenue are within half a cent of their sums; each ratio falls back to `0` exactly when its denominator sum is not positive, and otherwise is within half a hundredth of the percentage |
| Kpi.EmptyDatasetKpis | AI-14-cmd/Hackathon-GT/main.py:55-71 | no rows give all-zero totals and both fallbacks |
| Kpi.NoImpressionsNoCtr | AI-14-cmd/Hackathon-GT/main.py:61 | zero impressions on every row give the CTR fallback |
| Kpi.NoSpendNoRoi | AI-14-cmd/Hackathon-GT/main.py:62 | zero ad spend on every row gives the ROI fallback |
| Kpi.PercentTextLatin1 | AI-14-cmd/Hackathon-GT/main.py:220-221 | a printed CTR or ROI encodes in Latin-1 |
| Kpi.TotalsSplit | AI-14-cmd/Hackathon-GT/main.py:55-58 | every column total is additive over a split of the rows |
| Kpi.CtrWithinBounds | AI-14-cmd/Hackathon-GT/main.py:61-65 | when every row has 0 ≤ clicks ≤ impressions, a computed CTR lies between 0 and 100 percent |
| Kpi.SumIntsAppend | AI-14-cmd/Hackathon-GT/main.py:55-56 | an integer column's sum is additive over concatenation |
| Kpi.SumIntsMonotone | AI-14-cmd/Hackathon-GT/main.py:55-56 | a column that is pointwise no larger has a sum that is no larger |
| Kpi.ClicksOf | AI-14-cmd/Hackathon-GT/main.py:55 | `df['clicks']` has one entry per row, in row order |
| Data.FillRows | AI-14-cmd/Hackathon-GT/main.py:30-34 | filling keeps the number and order of rows and fills each row on its own |
| Data.FillRowsExtend | AI-14-cmd/Hackathon-GT/main.py:32-34 | filling one more column after some others equals filling them all at once |
| Data.DataFrame.FillNa | AI-14-cmd/Hackathon-GT/main.py:34 | overwrites the rows with one column filled and keeps the column set |
| Data.IngestAndClean | AI-14-cmd/Hackathon-GT/main.py:30-34 | after the loop, every numeric column the file has is filled and no other is touched |
| Data.Dataset | AI-14-cmd/Hackathon-GT/main.py:30-34 | fully clean rows convert one for one into records |
| Data.CleaningFillsZeros | AI-14-cmd/Hackathon-GT/main.py:30-34 | with all four columns present, every cell is kept if present and is 0 if empty, and dates are kept |
| Data.CleaningSkipsAbsentColumns | AI-14-cmd/Hackathon-GT/main.py:31-34 | each of the four columns, when the file lacks it, is left untouched in every row |
| Data.CleaningIdempotent | AI-14-cmd/Hackathon-GT/main.py:30-34 | cleaning twice is cleaning once |
| Insight.ClassifyTrend | AI-14-cmd/Hackathon-GT/main.py:121-123 | definition of the trend test on the two seven-day windows; its properties are `Insight.TrendComparesMeans` and `Insight.ShortColumnDeclines` |
| Insight.Prompt | AI-14-cmd/Hackathon-GT/main.py:125-135 | definition of the prompt sent to both services; its use is stated by `Insight.InsightFor` and `Pipeline.NonLatinReplyFails` |
| Insight.RuleBasedInsight | AI-14-cmd/Hackathon-GT/main.py:181 | definition of the rule-based template; its properties are `Insight.TemplateWording` and `Insight.TemplateLatin1` |
| Insight.HasKey | AI-14-cmd/Hackathon-GT/main.py:138-160 | definition of `if openai_key:` and `if google_key:`, false for an unset and for an empty key; its property is `Insight.KeylessServiceNotCalled` |
| Insight.Chain | AI-14-cmd/Hackathon-GT/main.py:137-183 | definition of the fallback chain; its properties are `Insight.ChainFirstAnswerWins`, `Insight.ChainNoAnswerFallsBack` and `Insight.TwoServiceChain` |
| Insight.InsightFor | AI-14-cmd/Hackathon-GT/main.py:120-183 | definition of what `generate_ai_insights` returns: the chain on the prompt with the template as fallback; its properties are `Insight.GenerateAiInsights`, `Pipeline.NoKeysInsight` and `Insight.TemplateIffNoAnswer` |
| Insight.TrendComparesMeans | AI-14-cmd/Hackathon-GT/main.py:121-123 | the trend is improving exactly when the mean of the last seven clicks exceeds the mean of the first seven; no rows give declining |
| Insight.ShortColumnDeclines | AI-14-cmd/Hackathon-GT/main.py:121-123 | with seven rows or fewer both windows are the whole column, so the trend is declining |
| Insight.TemplateWording | AI-14-cmd/Hackathon-GT/main.py:181 | the template is non-empty; it says "strong" exactly when the rounded ROI exceeds 200 and "moderate" otherwise; it ends in the scaling advice exactly when the trend is improving, and in the optimising advice otherwise |
| Insight.RuleBasedShape | AI-14-cmd/Hackathon-GT/main.py:181 | the same wording facts for any lead, body and choice of word and advice |
| Insight.TemplateLatin1 | AI-14-cmd/Hackathon-GT/main.py:181 | the template always encodes in Latin-1, whatever the KPIs and trend |
| Insight.LeadLatin1 | AI-14-cmd/Hackathon-GT/main.py:181 | the template's opening, up to its performance word, encodes |
| Insight.BodyLatin1 | AI-14-cmd/Hackathon-GT/main.py:181 | the template's middle, from the performance word to the advice, encodes |
| Insight.ChainFirstAnswerWins | AI-14-cmd/Hackathon-GT/main.py:137-177 | the first keyed service that answers supplies the stripped text; exactly the keyed services up to it were called |
| Insight.ChainNoAnswerFallsBack | AI-14-cmd/Hackathon-GT/main.py:137-183 | when no service answers, the template is used and every keyed service was called |
| Insight.TwoServiceChain | AI-14-cmd/Hackathon-GT/main.py:137-183 | OpenAI's answer wins, then Gemini's, then the template, with the calls made in each case |
| Insight.GenerateAiInsights | AI-14-cmd/Hackathon-GT/main.py:120-183 | the method computes the trend and the prompt and asks the services, giving the chain's insight on the template |
| Insight.AskServices | AI-14-cmd/Hackathon-GT/main.py:137-183 | trying OpenAI, then Gemini, each only with a key and returning at once on a reply, then the template, yields what the general fallback chain gives on the two services |
| Insight.KeylessServiceNotCalled | AI-14-cmd/Hackathon-GT/main.py:138-160 | a service whose key is unset or empty is never called |
| Insight.NoKeysUseTemplate | AI-14-cmd/Hackathon-GT/main.py:179-183 | with no key at all, the template is the insight and nothing is called |
| Insight.OpenAiFailureFallsToGemini | AI-14-cmd/Hackathon-GT/main.py:155-175 | OpenAI raising passes on to Gemini, whose stripped reply is returned after both were called |
| Insight.ChainSkipsFailure | AI-14-cmd/Hackathon-GT/main.py:155-157 | a keyed service that raises only adds itself to the calls made |
| Insight.ChainFirstAnswers | AI-14-cmd/Hackathon-GT/main.py:152-154 | a first service that answers returns at once |
| Insight.OpenAiAnswerWins | AI-14-cmd/Hackathon-GT/main.py:139-154 | an OpenAI answer is returned stripped, and Gemini is not called |
| Insight.TemplateIffNoAnswer | AI-14-cmd/Hackathon-GT/main.py:137-183 | the template is used exactly when neither service answers |
| Insight.BlankReplyGivesEmptyInsight | AI-14-cmd/Hackathon-GT/main.py:152 | a whitespace-only OpenAI reply yields an empty insight |
| Report.KpiLines | AI-14-cmd/Hackathon-GT/main.py:219-225 | definition of the six KPI lines; its properties are `Report.ReadKpiLinesOf` and `Report.KpiLinesEncodable` |
| Report.ReportEntries | AI-14-cmd/Hackathon-GT/main.py:204-244 | definition of the page in placement order; its properties are `Report.ReportLayout`, `Report.ReportKinds`, `Report.ReportKpisRoundTrip` and `Report.ReportEncodable` |
| Report.Pdf.Cell | AI-14-cmd/Hackathon-GT/main.py:206 | a `cell` appends one text line to the page |
| Report.Pdf.MultiCell | AI-14-cmd/Hackathon-GT/main.py:234 | `multi_cell` appends one text block |
| Report.Pdf.Image | AI-14-cmd/Hackathon-GT/main.py:244 | `image` appends one picture |
| Report.Pdf.constructor | AI-14-cmd/Hackathon-GT/main.py:201-202 | a new document with one page has no entries |
| Report.Pdf.Output | AI-14-cmd/Hackathon-GT/main.py:248 | `output` saves the page exactly when every text on it encodes in Latin-1 |
| Report.PlaceHeading | AI-14-cmd/Hackathon-GT/main.py:204-216 | appends the title, the creation line and the KPI heading |
| Report.PlaceKpis | AI-14-cmd/Hackathon-GT/main.py:219-225 | appends the six KPI lines in order |
| Report.PlaceSummary | AI-14-cmd/Hackathon-GT/main.py:229-239 | appends the summary heading, the insight block and the chart heading |
| Report.CreatePdfReport | AI-14-cmd/Hackathon-GT/main.py:204-251 | the document holds the report entries in source order; it is saved under the output directory as `Insight_Report.pdf` exactly when every entry encodes, and otherwise no path is returned |
| Report.JoinPath | AI-14-cmd/Hackathon-GT/main.py:247 | the joined path ends with the file name |
| Report.ReadKpiLinesOf | AI-14-cmd/Hackathon-GT/main.py:219-225 | the six KPI figures are read back from the six lines |
| Report.ReportKpisRoundTrip | AI-14-cmd/Hackathon-GT/main.py:219-225 | the whole KPI record is read back from the page, whatever the insight, time and chart |
| Report.ReportLayout | AI-14-cmd/Hackathon-GT/main.py:204-244 | 12 entries, or 13 with the chart; title, time, headings, insight and picture at fixed positions |
| Report.ReportKinds | AI-14-cmd/Hackathon-GT/main.py:233-244 | the insight is the only text block, and the picture, when present, is only the last entry |
| Report.PageEncodableAppend | AI-14-cmd/Hackathon-GT/main.py:248 | a page encodes exactly when both of its parts do |
| Report.HeadingEncodable | AI-14-cmd/Hackathon-GT/main.py:205-216 | the heading encodes exactly when the creation time does |
| Report.LineEncodable | AI-14-cmd/Hackathon-GT/main.py:220-225 | a label, an encodable value and a unit make an encodable line |
| Report.KpiLinesEncodable | AI-14-cmd/Hackathon-GT/main.py:219-225 | the six KPI lines always encode, whatever the figures |
| Report.SummaryEncodable | AI-14-cmd/Hackathon-GT/main.py:229-239 | the summary encodes exactly when the insight does |
| Report.ReportEncodable | AI-14-cmd/Hackathon-GT/main.py:204-248 | the whole page encodes exactly when the creation time and the insight do |
| Pipeline.ReportPipeline | AI-14-cmd/Hackathon-GT/main.py:254-288 | definition of a run of `generate_report`; its properties are `Pipeline.GenerateReport`, `Pipeline.PipelineSucceedsIff` and `Pipeline.PipelineFailsOnFirstMissing` |
| Pipeline.Steps | AI-14-cmd/Hackathon-GT/main.py:267-284 | definition of the steps after cleaning; its property is `Pipeline.PipelineOutcome` |
| Pipeline.Assemble | AI-14-cmd/Hackathon-GT/main.py:279-284 | definition of what the PDF step yields; its properties are `Pipeline.ReportSteps` and `Pipeline.AssembleFaithful` |
| Pipeline.ErrorText | AI-14-cmd/Hackathon-GT/server.py:60-63 | definition of `str(e)`: the quoted column name of a `KeyError`, or the message of the library's exception; its use is stated by `Server.MissingColumnUpload` and `Server.UnencodableUpload` |
| Pipeline.FirstMissing | AI-14-cmd/Hackathon-GT/main.py:55-58 | none exactly when all four columns exist; otherwise a missing column all of whose predecessors in read order exist |
| Pipeline.AllColumnsClean | AI-14-cmd/Hackathon-GT/main.py:30-34 | with every column present, every cleaned row is fully clean |
| Pipeline.ComputeKpisOf | AI-14-cmd/Hackathon-GT/main.py:55-71 | raises `KeyError` on the first missing column, otherwise yields the KPIs of the cleaned rows |
| Pipeline.CreateVisualization | AI-14-cmd/Hackathon-GT/main.py:99-104 | returns `chart.png` joined under the output directory |
| Pipeline.GenerateReport | AI-14-cmd/Hackathon-GT/main.py:254-288 | the step-by-step method yields exactly the pipeline specification, error included |
| Pipeline.ReportSteps | AI-14-cmd/Hackathon-GT/main.py:272-284 | chart, insight and PDF in order yield the assembled outcome, or the encoding failure the PDF step raises |
| Pipeline.PipelineSucceedsIff | AI-14-cmd/Hackathon-GT/main.py:263-288 | the run succeeds exactly when the file has all four numeric columns, the creation time encodes in Latin-1, and so does the insight |
| Pipeline.MissingColumnFails | AI-14-cmd/Hackathon-GT/main.py:55-58 | a missing column fails the run with a `KeyError` |
| Pipeline.PipelineFailsOnFirstMissing | AI-14-cmd/Hackathon-GT/main.py:55-58 | a `KeyError` names a missing column, and every column read before it exists |
| Pipeline.ColumnsPresentFailure | AI-14-cmd/Hackathon-GT/main.py:248 | with all four columns present, the only failure is the PDF library's, with its message |
| Pipeline.CleanedCounts | AI-14-cmd/Hackathon-GT/main.py:30-34 | the cleaned clicks and impressions are the file's, with empty cells read as 0 |
| Pipeline.CleanedTotals | AI-14-cmd/Hackathon-GT/main.py:55-67 | the KPI counts are the file's column sums with empty cells as 0 |
| Pipeline.PipelineTotals | AI-14-cmd/Hackathon-GT/main.py:267-270 | a successful run reports the file's total clicks and impressions, nulls counted as 0 |
| Pipeline.AssembleFaithful | AI-14-cmd/Hackathon-GT/main.py:279 | a saved PDF carries the KPIs, which read back from it, and the insight as its one block; it is saved at `output/Insight_Report.pdf` |
| Pipeline.PipelineDocument | AI-14-cmd/Hackathon-GT/main.py:276-284 | a successful run's PDF reads back its own KPIs, holds its insight, and sits at `output/Insight_Report.pdf` |
| Pipeline.PipelineOutcome | AI-14-cmd/Hackathon-GT/main.py:265-284 | success means all columns exist and the outcome is what the steps give on the cleaned rows |
| Pipeline.ServicesKeepKpis | AI-14-cmd/Hackathon-GT/main.py:267-276 | the services cannot turn a missing-column failure into anything else, and two successful runs on the same file have the same KPIs whatever the services do |
| Pipeline.NoKeysSucceed | AI-14-cmd/Hackathon-GT/main.py:179-181 | with no keys, a file with all four columns and a creation time that encodes always gives a report |
| Pipeline.NonLatinReplyFails | AI-14-cmd/Hackathon-GT/main.py:139-154 | with the OpenAI key set and all four columns present, an OpenAI reply to the run's prompt that keeps a character outside Latin-1 after stripping makes the run fail with the PDF library's message |
| Pipeline.NoKeysReport | AI-14-cmd/Hackathon-GT/main.py:276 | with no keys, the insight of a run is the template on the file's click trend |
| Pipeline.NoKeysInsight | AI-14-cmd/Hackathon-GT/main.py:179-183 | with no keys, the insight step gives the template on the rows' trend, with nothing called |
| Scenario.DoublingCampaignKpis | AI-14-cmd/Hackathon-GT/main.py:55-71 | fourteen days whose clicks double in week two give CTR 15.0, ROI 300.0, 210 clicks, 1,400 impressions, $70.00 and $210.00, and an improving trend |
| Scenario.DoublingCampaignTemplate | AI-14-cmd/Hackathon-GT/main.py:181 | that campaign's template says "strong" and advises scaling |
| Scenario.CampaignCtrPrinted | AI-14-cmd/Hackathon-GT/main.py:220 | a CTR of 15 percent prints as `15.0` |
| Scenario.CampaignRoiPrinted | AI-14-cmd/Hackathon-GT/main.py:221 | an ROI of 300 percent prints as `300.0` |
| Scenario.SpendRoundsUp | AI-14-cmd/Hackathon-GT/main.py:69 | a spend of 1234.567 rounds to 123457 cents |
| Scenario.ThousandsAmount | AI-14-cmd/Hackathon-GT/main.py:224 | 123457 cents print as `1,234.57` |
| Scenario.SpendRounding | AI-14-cmd/Hackathon-GT/main.py:224 | a spend of 1234.567 prints as `$1,234.57` |
| Server.AllowedFile | AI-14-cmd/Hackathon-GT/server.py:22-23 | definition of `allowed_file`; its properties are `Server.NoDotRejected`, `Server.LastExtensionDecides` and `Server.NamesSplitAtLastDot` |
| Server.Refusal | AI-14-cmd/Hackathon-GT/server.py:35-44 | definition of the three guards in order; its properties are `Server.BadRequestIffGuardFails` and `Server.GuardsInOrder` |
| Server.UploadFile | AI-14-cmd/Hackathon-GT/server.py:31-63 | definition of `upload_file`; its properties are `Server.RefusalIgnoresContent`, `Server.AcceptedUpload`, `Server.UnencodableUpload`, `Server.MissingColumnUpload` and `Server.UnreadableUpload` |
| Server.NoDotRejected | AI-14-cmd/Hackathon-GT/server.py:22-23 | a name without a dot is refused |
| Server.LastExtensionDecides | AI-14-cmd/Hackathon-GT/server.py:20-23 | for any stem, `stem.ext` with a dot-free `ext` is accepted exactly when `ext` lowers to `csv` |
| Server.NamesSplitAtLastDot | AI-14-cmd/Hackathon-GT/server.py:23 | every name with a dot splits at its last dot into a stem and a dot-free extension, so the two lemmas above decide every name |
| Server.ExtensionCaseIgnored | AI-14-cmd/Hackathon-GT/server.py:23 | extensions that lower alike are accepted alike |
| Server.UpperCaseAccepted | AI-14-cmd/Hackathon-GT/server.py:23 | `report.CSV` is accepted |
| Server.EarlierExtensionIgnored | AI-14-cmd/Hackathon-GT/server.py:23 | `a.csv.txt` is refused |
| Server.FinalExtensionAccepted | AI-14-cmd/Hackathon-GT/server.py:23 | `a.txt.csv` is accepted |
| Server.TrailingAndLeadingDot | AI-14-cmd/Hackathon-GT/server.py:23 | `file.` is refused and `.csv` accepted |
| Server.BadRequestIffGuardFails | AI-14-cmd/Hackathon-GT/server.py:35-44 | the answer is 400 exactly when the part is missing, its name is empty, or its extension is not allowed |
| Server.GuardsInOrder | AI-14-cmd/Hackathon-GT/server.py:35-41 | a missing part is reported first; an empty name is reported as "No file selected" although it would also fail the type check |
| Server.RefusalIgnoresContent | AI-14-cmd/Hackathon-GT/server.py:35-52 | a refused upload answers the same 400 whatever the file holds and whatever the services do, so the report is not generated |
| Server.AcceptedUpload | AI-14-cmd/Hackathon-GT/server.py:52-58 | an accepted upload of a table with all four columns, whose creation time and insight encode, answers 200 with success, the message and `output/Insight_Report.pdf` |
| Server.UnencodableUpload | AI-14-cmd/Hackathon-GT/server.py:52-63 | an accepted upload with all four columns whose creation time or insight does not encode answers 500 with the PDF library's message after the error prefix |
| Server.PipelineWritesReport | AI-14-cmd/Hackathon-GT/server.py:52-57 | a successful run reports the path `output/Insight_Report.pdf` |
| Server.MissingColumnUpload | AI-14-cmd/Hackathon-GT/server.py:60-63 | an accepted upload lacking a numeric column answers 500 with the quoted column name after the error prefix |
| Server.UnreadableUpload | AI-14-cmd/Hackathon-GT/server.py:60-63 | an accepted upload that cannot be read answers 500 with the error's text after the prefix |

## Left out

- Reading the CSV (`pd.read_csv`) and converting dates (`pd.to_datetime`): the parsed
  table is an input. A file that cannot be read, or has no `date` column, is the
  upload's `Failure(reason)`, carrying the exception text.
- `create_visualization`'s plotting (matplotlib): only the returned path is modelled.
  Whether the chart file exists is a parameter.
- FPDF fonts, sizes, alignment, vertical spacing (`ln`) and the binary PDF output: the
  page is modelled as the sequence of text lines, text blocks and pictures placed on it.
  The only font effect kept is the Latin-1 encoding of the core fonts. The model raises
  it when the page is saved, as PyFPDF does; fpdf2 raises it already in the `cell` or
  `multi_cell` call. Either way the run fails with the library's message, which is a
  parameter.
- `datetime.now()`: the formatted creation time is a parameter.
- The OpenAI and Gemini SDKs, `load_dotenv` and `os.getenv`: each service is a key and
  a reply function, and any exception the SDK raises is the `Raised` reply.
- Kpi.Round2: rounds the exact decimal value half to even. Binary floating-point
  effects of the sums and of `round` are not modelled.
- Format.DecimalRepr: covers the repr of values with at most two decimals. Exponent
  notation, which Python uses only for very large or very small magnitudes, is not
  modelled.
- Kpi.ComputeKpis: count cells are integers in the model. `int()` of a float sum
  (main.py:67-68), which truncates, is not modelled.
- Non-numeric cells: a text cell in a numeric column, such as a quoted `"1,200"`, makes
  pandas read the column as text, and `compute_kpis` then raises `TypeError` or `ValueError`
  (main.py:55-68). The model's cells are numbers or empty, so such a file is the
  upload's `Failure(reason)` (`Server.UnreadableUpload`). The four lemmas on the next
  lines are about numeric tables only.
- Pipeline.PipelineSucceedsIff: holds for tables whose numeric cells are numbers or
  empty. A text cell raises `TypeError` or `ValueError` in `compute_kpis`, which the model does not
  represent.
- Pipeline.NoKeysSucceed: holds for tables whose numeric cells are numbers or empty. A
  text cell raises `TypeError` or `ValueError` in `compute_kpis`, which the model does not represent.
- Pipeline.ServicesKeepKpis: about tables whose numeric cells are numbers or empty.
  The `TypeError` or `ValueError` of a text cell is not represented.
- Server.AcceptedUpload: holds for tables whose numeric cells are numbers or empty. A
  text cell raises `TypeError` or `ValueError` in `compute_kpis` and gives 500, which the model
  expresses only as an unreadable upload.
- File-system effects: `os.makedirs`, saving the upload, writing the chart and the PDF.
- Flask plumbing: routing, `jsonify`, `secure_filename` and the saved upload path,
  `MAX_CONTENT_LENGTH`, and the console logging and traceback. An exception raised
  while saving the upload is the upload's `Failure(reason)`.
- The `index`, `download_report` and `generate_sample` routes, `web_app.py`, the static
  front end and `test_gemini.py`: they are not part of the modelled core.
- Strings.Lower: lowers only ASCII letters. No non-ASCII character lowers into `csv`,
  so the extension check is unaffected.
- Pipeline.GenerateReport: also returns the KPIs, the insight and the page entries
  beside the PDF path, so that properties can be stated about them. The source returns
  only the path.
- Printing `[INFO]`, `[SUCCESS]` and `[WARNING]` messages to the console.
