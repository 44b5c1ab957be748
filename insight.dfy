/** `generate_ai_insights`: the click trend, the prompt, the rule-based
    template, and the fallback chain OpenAI, then Gemini, then the template.
    The two remote services are parameters: a key as `os.getenv` returns it,
    and the reply the service gives to a prompt (text, or an exception). */
module Insight {
  import opened Wrappers
  import opened Data
  import opened Kpi
  import Format
  import Strings
  import opened Wording

  datatype Trend = Improving | Declining

  function TrendLabel(t: Trend): string {
    match t
    case Improving => ImprovingWord
    case Declining => DecliningWord
  }

  function Min(a: int, b: int): int {
    if a <= b then a else b
  }

  /** `clicks[:7]`: the first seven values, or all of them when there are fewer. */
  function FirstWeek(xs: seq<int>): seq<int> {
    xs[..Min(7, |xs|)]
  }

  /** `clicks[-7:]`: the last seven values, or all of them when there are fewer. */
  function LastWeek(xs: seq<int>): seq<int> {
    xs[|xs| - Min(7, |xs|)..]
  }

  /** The trend test on the clicks column, with the two window means
      compared by cross-multiplication so that nothing is divided. */
  function ClassifyTrend(clicks: seq<int>): Trend {
    var first, last := FirstWeek(clicks), LastWeek(clicks);
    if SumInts(last) * |first| > SumInts(first) * |last| then Improving else Declining
  }

  function Mean(xs: seq<int>): real
    requires xs != []
  {
    SumInts(xs) as real / |xs| as real
  }

  /** The trend is "improving" exactly when the mean of the last week is
      strictly above the mean of the first week; equal means, and the empty
      column (whose two means are both NaN), give "declining". */
  lemma TrendComparesMeans(clicks: seq<int>)
    ensures clicks == [] ==> ClassifyTrend(clicks) == Declining
    ensures clicks != [] ==>
      (ClassifyTrend(clicks) == Improving <==> Mean(LastWeek(clicks)) > Mean(FirstWeek(clicks)))
  {
    if clicks != [] {
      var first, last := FirstWeek(clicks), LastWeek(clicks);
      var w := |first|;
      assert |last| == w && w > 0;
      var a, b := SumInts(last) as real, SumInts(first) as real;
      var wr := w as real;
      assert Mean(last) == a / wr && Mean(first) == b / wr;
      assert (a / wr) * wr == a && (b / wr) * wr == b;
      assert a / wr > b / wr <==> a > b by {
        if a / wr > b / wr {
          assert (a / wr) * wr > (b / wr) * wr;
        }
        if a > b {
          assert (a / wr - b / wr) * wr == a - b;
        }
      }
      assert SumInts(last) * w > SumInts(first) * w <==> SumInts(last) > SumInts(first) by {
        if SumInts(last) > SumInts(first) {
          assert (SumInts(last) - SumInts(first)) * w > 0;
        }
        if SumInts(last) <= SumInts(first) {
          assert (SumInts(first) - SumInts(last)) * w >= 0;
        }
      }
    }
  }

  /** With seven rows or fewer both windows are the whole column, so the
      trend is always "declining". */
  lemma ShortColumnDeclines(clicks: seq<int>)
    requires |clicks| <= 7
    ensures ClassifyTrend(clicks) == Declining
  {
    assert FirstWeek(clicks) == clicks == LastWeek(clicks);
  }

  /** The prompt sent to both remote services. */
  function Prompt(k: Kpis, t: Trend): string {
    PromptOpening
    + CtrItem + PercentText(k.ctr) + "%\n"
    + RoiItem + PercentText(k.roi) + "%\n"
    + ClicksItem + Format.Grouped(k.totalClicks) + "\n"
    + ImpressionsItem + Format.Grouped(k.totalImpressions) + "\n"
    + SpendItem + Format.Money(k.totalSpend) + "\n"
    + RevenueItem + Format.Money(k.totalRevenue) + "\n"
    + TrendItem + TrendLabel(t) + "\n\n"
    + PromptClosing
  }

  /** The rule-based text up to its performance word. */
  function Lead(k: Kpis): string {
    CtrOpening + PercentText(k.ctr) + RoiOpening + PercentText(k.roi) + Indicating
  }

  /** The rule-based text after its performance word, up to the final sentence. */
  function Body(k: Kpis, t: Trend): string {
    PerformanceWith + Format.Grouped(k.totalClicks) + ClicksFrom
    + Format.Grouped(k.totalImpressions) + TrendIs + TrendLabel(t)
    + RevenueIntro + Format.Money(k.totalRevenue) + GeneratedFrom
    + Format.Money(k.totalSpend) + InAdSpend
  }

  /** The template used when neither service answers. */
  function RuleBasedInsight(k: Kpis, t: Trend): string {
    Lead(k) + (if Exceeds(k.roi, 200) then Strong else Moderate) + Body(k, t)
      + (if t == Improving then ContinueScaling else ConsiderOptimizing)
  }

  /** The template is never empty. Its performance word is Strong exactly
      when the rounded ROI exceeds 200, and Moderate otherwise; its last
      sentence is the scaling advice exactly when the trend is improving, and
      the optimising advice otherwise. */
  lemma TemplateWording(k: Kpis, t: Trend)
    ensures RuleBasedInsight(k, t) != []
    ensures Strings.StartsWith(RuleBasedInsight(k, t), Lead(k) + Strong) <==> Exceeds(k.roi, 200)
    ensures Strings.StartsWith(RuleBasedInsight(k, t), Lead(k) + Moderate) <==> !Exceeds(k.roi, 200)
    ensures Strings.EndsWith(RuleBasedInsight(k, t), ContinueScaling) <==> t == Improving
    ensures Strings.EndsWith(RuleBasedInsight(k, t), ConsiderOptimizing) <==> t == Declining
  {
    RuleBasedShape(Lead(k), Exceeds(k.roi, 200), Body(k, t), t == Improving);
  }

  lemma RuleBasedShape(lead: string, strong: bool, body: string, improving: bool)
    ensures var word := if strong then Strong else Moderate;
      var advice := if improving then ContinueScaling else ConsiderOptimizing;
      var text := lead + word + body + advice;
      text != [] &&
      (Strings.StartsWith(text, lead + Strong) <==> strong) &&
      (Strings.StartsWith(text, lead + Moderate) <==> !strong) &&
      (Strings.EndsWith(text, ContinueScaling) <==> improving) &&
      (Strings.EndsWith(text, ConsiderOptimizing) <==> !improving)
  {
    var word := if strong then Strong else Moderate;
    var advice := if improving then ContinueScaling else ConsiderOptimizing;
    var text := lead + word + body + advice;
    assert text[|lead|] == word[0];
    assert text[..|lead| + |word|] == lead + word;
    assert text[|text| - |advice|..] == advice;
    assert text[|text| - 2] == advice[|advice| - 2];
    if !strong {
      assert |lead + Strong| <= |text|;
      assert text[..|lead + Strong|][|lead|] == 'm';
    } else if |lead + Moderate| <= |text| {
      assert text[..|lead + Moderate|][|lead|] == 's';
    }
    if !improving {
      assert text[|text| - |ContinueScaling|..][|ContinueScaling| - 2] == 't';
    } else if |ConsiderOptimizing| <= |text| {
      assert text[|text| - |ConsiderOptimizing|..][|ConsiderOptimizing| - 2] == 'm';
    }
  }

  /** The template is text the report's fonts can encode: fixed wording
      around printed figures. */
  lemma TemplateLatin1(k: Kpis, t: Trend)
    ensures Strings.Latin1(RuleBasedInsight(k, t))
  {
    LeadLatin1(k);
    BodyLatin1(k, t);
    var word := if Exceeds(k.roi, 200) then Strong else Moderate;
    var advice := if t == Improving then ContinueScaling else ConsiderOptimizing;
    StrongLatin1();
    ModerateLatin1();
    ContinueScalingLatin1();
    ConsiderOptimizingLatin1();
    Strings.Latin1Join(Lead(k), word, Body(k, t));
    Strings.Latin1Append(Lead(k) + word + Body(k, t), advice);
  }

  lemma LeadLatin1(k: Kpis)
    ensures Strings.Latin1(Lead(k))
  {
    PercentTextLatin1(k.ctr);
    PercentTextLatin1(k.roi);
    CtrOpeningLatin1();
    RoiOpeningLatin1();
    IndicatingLatin1();
    Strings.Latin1Join(CtrOpening, PercentText(k.ctr), RoiOpening);
    Strings.Latin1Join(CtrOpening + PercentText(k.ctr) + RoiOpening, PercentText(k.roi), Indicating);
  }

  lemma BodyLatin1(k: Kpis, t: Trend)
    ensures Strings.Latin1(Body(k, t))
  {
    var clicks, impressions := Format.Grouped(k.totalClicks), Format.Grouped(k.totalImpressions);
    var revenue, spend := Format.Money(k.totalRevenue), Format.Money(k.totalSpend);
    Format.GroupedLatin1(k.totalClicks);
    Format.GroupedLatin1(k.totalImpressions);
    Format.MoneyLatin1(k.totalRevenue);
    Format.MoneyLatin1(k.totalSpend);
    PerformanceWithLatin1();
    ClicksFromLatin1();
    TrendIsLatin1();
    ImprovingWordLatin1();
    DecliningWordLatin1();
    RevenueOfLatin1();
    GeneratedFromLatin1();
    InAdSpendLatin1();
    var s1 := PerformanceWith + clicks + ClicksFrom;
    Strings.Latin1Join(PerformanceWith, clicks, ClicksFrom);
    var s2 := s1 + impressions + TrendIs;
    Strings.Latin1Join(s1, impressions, TrendIs);
    var s3 := s2 + TrendLabel(t) + RevenueIntro;
    Strings.Latin1Join(s2, TrendLabel(t), RevenueIntro);
    var s4 := s3 + revenue + GeneratedFrom;
    Strings.Latin1Join(s3, revenue, GeneratedFrom);
    Strings.Latin1Join(s4, spend, InAdSpend);
  }

  datatype ProviderName = OpenAI | Gemini

  /** What a remote call yields: an exception (any failure, including a
      reply without text), or the reply text. */
  datatype Reply = Raised | Replied(content: string)

  /** A remote service: its name, its key as `os.getenv` returns it, and the
      reply it gives to a prompt. */
  datatype Provider = Provider(name: ProviderName, key: Option<string>, ask: string -> Reply)

  /** `if key:`: an unset key and an empty one are both skipped. */
  predicate HasKey(p: Provider) {
    p.key.Some? && p.key.value != ""
  }

  /** The provider is called and answers. */
  predicate Answers(p: Provider, prompt: string) {
    HasKey(p) && p.ask(prompt).Replied?
  }

  datatype Source = FromProvider(name: ProviderName) | RuleBased

  /** The insight text, which source produced it, and which services were called, in order. */
  datatype Insight = Insight(text: string, source: Source, called: seq<ProviderName>)

  /** The fallback chain over any list of services: each one with a key is
      called in turn, a raised exception passes on to the next, and the first
      reply (stripped) wins; when none answers, the template `fallback` does. */
  function Chain(ps: seq<Provider>, prompt: string, fallback: string): Insight
    decreases |ps|
  {
    if ps == [] then Insight(fallback, RuleBased, [])
    else if !HasKey(ps[0]) then Chain(ps[1..], prompt, fallback)
    else
      match ps[0].ask(prompt)
      case Replied(content) => Insight(Strings.Strip(content), FromProvider(ps[0].name), [ps[0].name])
      case Raised =>
        var rest := Chain(ps[1..], prompt, fallback);
        rest.(called := [ps[0].name] + rest.called)
  }

  /** The names of the services that have a key, in order. */
  function KeyedNames(ps: seq<Provider>): (names: seq<ProviderName>)
    ensures |names| <= |ps|
  {
    if ps == [] then [] else (if HasKey(ps[0]) then [ps[0].name] else []) + KeyedNames(ps[1..])
  }

  /** When the `i`-th service is the first to answer, its stripped reply is
      the insight, and exactly the keyed services up to it were called. */
  lemma {:induction false} ChainFirstAnswerWins(ps: seq<Provider>, prompt: string, fallback: string, i: nat)
    requires i < |ps| && Answers(ps[i], prompt)
    requires forall j :: 0 <= j < i ==> !Answers(ps[j], prompt)
    ensures Chain(ps, prompt, fallback) ==
      Insight(Strings.Strip(ps[i].ask(prompt).content), FromProvider(ps[i].name), KeyedNames(ps[..i + 1]))
  {
    var p := ps[0];
    var pre := ps[..i + 1];
    assert pre[0] == p;
    if i == 0 {
      assert pre[1..] == [];
      assert KeyedNames(pre) == [p.name];
    } else {
      var tail := ps[1..];
      assert tail[..i] == pre[1..];
      assert tail[i - 1] == ps[i];
      assert forall j :: 0 <= j < i - 1 ==> tail[j] == ps[j + 1];
      ChainFirstAnswerWins(tail, prompt, fallback, i - 1);
      var rest := Chain(tail, prompt, fallback);
      assert KeyedNames(pre) == (if HasKey(p) then [p.name] else []) + KeyedNames(tail[..i]);
      assert !Answers(p, prompt);
      if HasKey(p) {
        assert p.ask(prompt) == Raised;
        assert Chain(ps, prompt, fallback) == rest.(called := [p.name] + rest.called);
      } else {
        assert Chain(ps, prompt, fallback) == rest;
      }
    }
  }

  /** When no service answers, the template is the insight, and every keyed
      service was called, in order. */
  lemma {:induction false} ChainNoAnswerFallsBack(ps: seq<Provider>, prompt: string, fallback: string)
    requires forall j :: 0 <= j < |ps| ==> !Answers(ps[j], prompt)
    ensures Chain(ps, prompt, fallback) == Insight(fallback, RuleBased, KeyedNames(ps))
  {
    if ps != [] {
      ChainNoAnswerFallsBack(ps[1..], prompt, fallback);
    }
  }

  /** The chain over two services, case by case. */
  lemma TwoServiceChain(p0: Provider, p1: Provider, prompt: string, fallback: string)
    ensures var c0 := if HasKey(p0) then [p0.name] else [];
      var c1 := if HasKey(p1) then [p1.name] else [];
      Chain([p0, p1], prompt, fallback) ==
        if Answers(p0, prompt) then Insight(Strings.Strip(p0.ask(prompt).content), FromProvider(p0.name), [p0.name])
        else if Answers(p1, prompt) then Insight(Strings.Strip(p1.ask(prompt).content), FromProvider(p1.name), c0 + [p1.name])
        else Insight(fallback, RuleBased, c0 + c1)
  {
    assert [p0, p1][1..] == [p1];
    assert [p1][1..] == [];
    var last := Chain([p1], prompt, fallback);
    var c1 := if HasKey(p1) then [p1.name] else [];
    if Answers(p1, prompt) {
      assert last == Insight(Strings.Strip(p1.ask(prompt).content), FromProvider(p1.name), [p1.name]);
    } else {
      assert Chain([], prompt, fallback) == Insight(fallback, RuleBased, []);
      assert last == Insight(fallback, RuleBased, c1);
    }
    if !HasKey(p0) {
      assert Chain([p0, p1], prompt, fallback) == last;
    } else if !Answers(p0, prompt) {
      assert Chain([p0, p1], prompt, fallback) == last.(called := [p0.name] + last.called);
    }
  }

  /** The two keys and the two services, as the environment provides them. */
  datatype Config = Config(
    openAiKey: Option<string>,
    openAi: string -> Reply,
    googleKey: Option<string>,
    gemini: string -> Reply)

  /** The services in the order they are tried. */
  function Providers(cfg: Config): seq<Provider> {
    [Provider(OpenAI, cfg.openAiKey, cfg.openAi), Provider(Gemini, cfg.googleKey, cfg.gemini)]
  }

  /** What `generate_ai_insights` returns for these KPIs and rows: the
      services in order on the prompt, with the template as the fallback. */
  function InsightFor(k: Kpis, ds: seq<Record>, cfg: Config): Insight {
    var trend := ClassifyTrend(ClicksOf(ds));
    Chain(Providers(cfg), Prompt(k, trend), RuleBasedInsight(k, trend))
  }

  /** `generate_ai_insights`: the trend and the prompt, then the services in
      turn, then the template. It never fails. */
  method GenerateAiInsights(k: Kpis, ds: seq<Record>, cfg: Config) returns (r: Insight)
    ensures r == InsightFor(k, ds, cfg)
  {
    var trend := ClassifyTrend(ClicksOf(ds));
    r := AskServices(cfg, Prompt(k, trend), RuleBasedInsight(k, trend));
  }

  /** The two guarded attempts of `generate_ai_insights`, each returning
      early on success, and the template when neither answers. */
  method AskServices(cfg: Config, prompt: string, fallback: string) returns (r: Insight)
    ensures r == Chain(Providers(cfg), prompt, fallback)
  {
    var openAi := Provider(OpenAI, cfg.openAiKey, cfg.openAi);
    var gemini := Provider(Gemini, cfg.googleKey, cfg.gemini);
    TwoServiceChain(openAi, gemini, prompt, fallback);
    assert Providers(cfg) == [openAi, gemini];
    var called: seq<ProviderName> := [];
    if HasKey(openAi) {
      called := called + [OpenAI];
      var reply := cfg.openAi(prompt);
      if reply.Replied? {
        r := Insight(Strings.Strip(reply.content), FromProvider(OpenAI), called);
        return;
      }
    }
    if HasKey(gemini) {
      called := called + [Gemini];
      var reply := cfg.gemini(prompt);
      if reply.Replied? {
        r := Insight(Strings.Strip(reply.content), FromProvider(Gemini), called);
        return;
      }
    }
    r := Insight(fallback, RuleBased, called);
  }

  /** A service without a key is never called. */
  lemma KeylessServiceNotCalled(cfg: Config, prompt: string, fallback: string)
    ensures cfg.openAiKey.None? || cfg.openAiKey == Some("") ==>
      OpenAI !in Chain(Providers(cfg), prompt, fallback).called
    ensures cfg.googleKey.None? || cfg.googleKey == Some("") ==>
      Gemini !in Chain(Providers(cfg), prompt, fallback).called
  {
    var ps := Providers(cfg);
    TwoServiceChain(ps[0], ps[1], prompt, fallback);
  }

  /** Without either key the template is used and nothing is called. */
  lemma NoKeysUseTemplate(cfg: Config, prompt: string, fallback: string)
    requires !HasKey(Providers(cfg)[0]) && !HasKey(Providers(cfg)[1])
    ensures Chain(Providers(cfg), prompt, fallback) == Insight(fallback, RuleBased, [])
  {
    var ps := Providers(cfg);
    TwoServiceChain(ps[0], ps[1], prompt, fallback);
  }

  /** An OpenAI failure does not stop Gemini: when Gemini answers, its
      stripped reply is used, and OpenAI was called first if it had a key. */
  lemma OpenAiFailureFallsToGemini(cfg: Config, prompt: string, fallback: string)
    requires HasKey(Providers(cfg)[0]) && cfg.openAi(prompt) == Raised
    requires HasKey(Providers(cfg)[1]) && cfg.gemini(prompt).Replied?
    ensures Chain(Providers(cfg), prompt, fallback) ==
      Insight(Strings.Strip(cfg.gemini(prompt).content), FromProvider(Gemini), [OpenAI, Gemini])
  {
    var ps := Providers(cfg);
    ChainSkipsFailure(ps, prompt, fallback);
    assert ps[1..] == [ps[1]];
    ChainFirstAnswers([ps[1]], prompt, fallback);
  }

  /** A keyed service that raises is recorded as called and the rest of the chain runs. */
  lemma ChainSkipsFailure(ps: seq<Provider>, prompt: string, fallback: string)
    requires ps != [] && HasKey(ps[0]) && ps[0].ask(prompt) == Raised
    ensures Chain(ps, prompt, fallback) ==
      Chain(ps[1..], prompt, fallback).(called := [ps[0].name] + Chain(ps[1..], prompt, fallback).called)
  {
  }

  /** A keyed service that answers ends the chain. */
  lemma ChainFirstAnswers(ps: seq<Provider>, prompt: string, fallback: string)
    requires ps != [] && Answers(ps[0], prompt)
    ensures Chain(ps, prompt, fallback) ==
      Insight(Strings.Strip(ps[0].ask(prompt).content), FromProvider(ps[0].name), [ps[0].name])
  {
  }

  /** OpenAI has precedence: when it answers, its stripped reply is used and
      Gemini is never called. */
  lemma OpenAiAnswerWins(cfg: Config, prompt: string, fallback: string)
    requires HasKey(Providers(cfg)[0]) && cfg.openAi(prompt).Replied?
    ensures Chain(Providers(cfg), prompt, fallback) ==
      Insight(Strings.Strip(cfg.openAi(prompt).content), FromProvider(OpenAI), [OpenAI])
  {
    var ps := Providers(cfg);
    TwoServiceChain(ps[0], ps[1], prompt, fallback);
  }

  /** The template is used exactly when neither service answers. */
  lemma TemplateIffNoAnswer(cfg: Config, prompt: string, fallback: string)
    ensures Chain(Providers(cfg), prompt, fallback).source == RuleBased <==>
      !Answers(Providers(cfg)[0], prompt) && !Answers(Providers(cfg)[1], prompt)
    ensures Chain(Providers(cfg), prompt, fallback).source == RuleBased ==>
      Chain(Providers(cfg), prompt, fallback).text == fallback
  {
    var ps := Providers(cfg);
    TwoServiceChain(ps[0], ps[1], prompt, fallback);
  }

  /** A service whose reply is only whitespace makes the insight the empty string. */
  lemma BlankReplyGivesEmptyInsight(cfg: Config, prompt: string, fallback: string, blank: string)
    requires forall j :: 0 <= j < |blank| ==> Strings.IsSpace(blank[j])
    requires HasKey(Providers(cfg)[0]) && cfg.openAi(prompt) == Replied(blank)
    ensures Chain(Providers(cfg), prompt, fallback).text == ""
  {
    var ps := Providers(cfg);
    TwoServiceChain(ps[0], ps[1], prompt, fallback);
    Strings.BlankStripsToEmpty(blank);
  }
}
