/** `save_llm_data`: one row of the `llm_router` analytics table built from
    a routed request, its classifier output and its cost analysis. Lookups
    use `.get` with defaults; any exception while building or inserting the
    row makes the call return `None` instead of raising. The creation time
    is a parameter (the UTC clock in ISO format). */
module Supabase {
  import opened Wrappers
  import Py
  import CostAnalyzer

  /** A row of `llm_router`. */
  datatype Row = Row(
    prompt: string,
    resposta: string,
    modelo: string,
    sucesso: bool,
    confianca: Py.Json,
    pontuacaoGpt: Py.Json,
    pontuacaoDeepseek: Py.Json,
    pontuacaoMistral: Py.Json,
    pontuacaoGemini: Py.Json,
    ehTecnico: Py.Json,
    ehComplexo: Py.Json,
    ehAnalitico: Py.Json,
    ehSimples: Py.Json,
    ehCriativo: Py.Json,
    ehPratico: Py.Json,
    ehEducacional: Py.Json,
    ehConversacional: Py.Json,
    dataCriacao: string,
    requestId: string,
    costAnalysis: Py.Json,
    custoTotalUsd: real,
    custoTotalBrl: real,
    custoTotalCentavos: int,
    tokensPrompt: int,
    tokensResposta: int,
    tokensTotal: int)

  /** The cost and token columns of a row. */
  datatype Costs = Costs(usd: real, brl: real, centavos: int, promptTokens: int, completionTokens: int, totalTokens: int)

  /** `float(v)` on a number or a bool; `None` where it raises. */
  function FloatOf(v: Py.Json): (r: Option<real>)
    ensures v.JNum? ==> r == Some(v.n)
    ensures v.JNull? || v.JList? || v.JDict? ==> r.None?
  {
    match v
    case JNum(n) => Some(n)
    case JBool(b) => Some(if b then 1.0 else 0.0)
    case _ => None
  }

  /** `int(v)` on a number or a bool: a number is truncated toward zero. */
  function IntOf(v: Py.Json): (r: Option<int>)
    ensures v.JNum? ==> r == Some(CostAnalyzer.Trunc(v.n))
    ensures v.JNull? || v.JList? || v.JDict? ==> r.None?
  {
    match v
    case JNum(n) => Some(CostAnalyzer.Trunc(n))
    case JBool(b) => Some(if b then 1 else 0)
    case _ => None
  }

  /** `d.get(key, default)` where `d` may not be a dict. */
  function GetOf(d: Py.Json, key: string, default: Py.Json): (r: Option<Py.Json>)
    ensures d.JDict? <==> r.Some?
    ensures d.JDict? ==> r.value == Py.Get(d.fields, key, default)
  {
    match Py.DictGet(d, key, default)
    case Success(v) => Some(v)
    case Failure(_) => None
  }

  /** The four sub-dicts the cost columns are read from. */
  datatype CostParts = CostParts(tokens: Py.Json, usd: Py.Json, brl: Py.Json)

  function PartsOf(costAnalysis: Py.Json): (r: Option<CostParts>)
    ensures r.Some? ==> costAnalysis.JDict?
  {
    match GetOf(costAnalysis, "tokens", Py.JDict([]))
    case None => None
    case Some(tokens) =>
      match GetOf(costAnalysis, "costs", Py.JDict([]))
      case None => None
      case Some(costs) =>
        match GetOf(costs, "usd", Py.JDict([]))
        case None => None
        case Some(usd) =>
          match GetOf(costs, "brl", Py.JDict([]))
          case None => None
          case Some(brl) => Some(CostParts(tokens, usd, brl))
  }

  /** `int(d.get(key, 0))`. */
  function IntField(d: Py.Json, key: string): (r: Option<int>)
    ensures r.Some? ==> d.JDict?
  {
    match GetOf(d, key, Py.JNum(0.0))
    case None => None
    case Some(v) => IntOf(v)
  }

  /** `float(d.get(key, 0))`. */
  function FloatField(d: Py.Json, key: string): (r: Option<real>)
    ensures r.Some? ==> d.JDict?
  {
    match GetOf(d, key, Py.JNum(0.0))
    case None => None
    case Some(v) => FloatOf(v)
  }

  /** The token columns, each `int(tokens.get(key, 0))`. */
  function TokenColumns(tokens: Py.Json): (r: Option<(int, int, int)>)
    ensures r.Some? ==> tokens.JDict?
  {
    var p := IntField(tokens, "prompt");
    var c := IntField(tokens, "completion");
    var t := IntField(tokens, "total");
    if p.Some? && c.Some? && t.Some? then Some((p.value, c.value, t.value)) else None
  }

  /** The cost columns as written: the totals are `float` of the
      `"dollars"` fields, which hold whole units, and the cents column is
      the US dollar `"cents"` field. */
  function CostColumns(costAnalysis: Py.Json): (r: Option<Costs>)
    ensures r.Some? ==> costAnalysis.JDict?
  {
    match PartsOf(costAnalysis)
    case None => None
    case Some(parts) => Columns(parts, FloatField(parts.usd, "dollars"), FloatField(parts.brl, "dollars"))
  }

  /** The cost columns with the totals taken from the `"cents"` fields,
      divided by a hundred. */
  function CostColumnsByCents(costAnalysis: Py.Json): (r: Option<Costs>)
    ensures r.Some? ==> costAnalysis.JDict?
  {
    match PartsOf(costAnalysis)
    case None => None
    case Some(parts) => Columns(parts, Hundredths(FloatField(parts.usd, "cents")), Hundredths(FloatField(parts.brl, "cents")))
  }

  /** An amount of cents as a whole amount. */
  function Hundredths(cents: Option<real>): Option<real> {
    match cents
    case None => None
    case Some(c) => Some(c / 100.0)
  }

  /** The columns around the two totals: the US dollar cents and the token
      counts, or `None` when one of them cannot be read. */
  function Columns(parts: CostParts, usd: Option<real>, brl: Option<real>): Option<Costs> {
    var cents := IntField(parts.usd, "cents");
    var tokens := TokenColumns(parts.tokens);
    if usd.Some? && brl.Some? && cents.Some? && tokens.Some? then
      Some(Costs(usd.value, brl.value, cents.value, tokens.value.0, tokens.value.1, tokens.value.2))
    else None
  }

  /** What the request contributes to a row, beside its costs. */
  datatype Request = Request(
    prompt: string,
    response: string,
    model: string,
    success: bool,
    confidence: Py.Json,
    scores: Py.Json,
    indicators: Py.Json,
    costAnalysis: Py.Json,
    requestId: string)

  /** `confidence if confidence else 0.0`. */
  function Confidence(confidence: Py.Json): (c: Py.Json)
    ensures !Py.Truthy(confidence) ==> c == Py.JNum(0.0)
    ensures Py.Truthy(confidence) ==> c == confidence
  {
    if Py.Truthy(confidence) then confidence else Py.JNum(0.0)
  }

  /** The row built around the given cost columns; `None` when a lookup
      raises because scores or indicators are not dicts. */
  function RowWith(req: Request, createdAt: string, costs: Option<Costs>): (r: Option<Row>)
    ensures r.Some? <==> costs.Some? && req.scores.JDict? && req.indicators.JDict?
    ensures r.Some? ==>
      && r.value.prompt == req.prompt && r.value.resposta == req.response && r.value.modelo == req.model
      && r.value.sucesso == req.success && r.value.confianca == Confidence(req.confidence)
      && r.value.requestId == req.requestId && r.value.costAnalysis == req.costAnalysis
      && r.value.dataCriacao == createdAt
      && r.value.pontuacaoGpt == Py.Get(req.scores.fields, "gpt", Py.JNum(0.0))
      && r.value.pontuacaoDeepseek == Py.Get(req.scores.fields, "deepseek", Py.JNum(0.0))
      && r.value.pontuacaoMistral == Py.Get(req.scores.fields, "mistral", Py.JNum(0.0))
      && r.value.pontuacaoGemini == Py.Get(req.scores.fields, "gemini", Py.JNum(0.0))
      && r.value.ehTecnico == Py.Get(req.indicators.fields, "technical", Py.JBool(false))
      && r.value.ehComplexo == Py.Get(req.indicators.fields, "complex", Py.JBool(false))
      && r.value.ehAnalitico == Py.Get(req.indicators.fields, "analytical", Py.JBool(false))
      && r.value.ehSimples == Py.Get(req.indicators.fields, "simple", Py.JBool(false))
      && r.value.ehCriativo == Py.Get(req.indicators.fields, "creative", Py.JBool(false))
      && r.value.ehPratico == Py.Get(req.indicators.fields, "practical", Py.JBool(false))
      && r.value.ehEducacional == Py.Get(req.indicators.fields, "educational", Py.JBool(false))
      && r.value.ehConversacional == Py.Get(req.indicators.fields, "conversational", Py.JBool(false))
      && r.value.custoTotalUsd == costs.value.usd && r.value.custoTotalBrl == costs.value.brl
      && r.value.custoTotalCentavos == costs.value.centavos
      && r.value.tokensPrompt == costs.value.promptTokens && r.value.tokensResposta == costs.value.completionTokens
      && r.value.tokensTotal == costs.value.totalTokens
  {
    if !(costs.Some? && req.scores.JDict? && req.indicators.JDict?) then None
    else
      var score := (key: string) => Py.Get(req.scores.fields, key, Py.JNum(0.0));
      var flag := (key: string) => Py.Get(req.indicators.fields, key, Py.JBool(false));
      var c := costs.value;
      Some(Row(req.prompt, req.response, req.model, req.success, Confidence(req.confidence),
               score("gpt"), score("deepseek"), score("mistral"), score("gemini"),
               flag("technical"), flag("complex"), flag("analytical"), flag("simple"),
               flag("creative"), flag("practical"), flag("educational"), flag("conversational"),
               createdAt, req.requestId, req.costAnalysis,
               c.usd, c.brl, c.centavos, c.promptTokens, c.completionTokens, c.totalTokens))
  }

  /** The row `save_llm_data` builds, as written. */
  function BuildRow(req: Request, createdAt: string): (r: Option<Row>)
    ensures r.Some? <==> CostColumns(req.costAnalysis).Some? && req.scores.JDict? && req.indicators.JDict?
  {
    RowWith(req, createdAt, CostColumns(req.costAnalysis))
  }

  /** The row with the cost totals read from the cents fields. */
  function BuildRowByCents(req: Request, createdAt: string): (r: Option<Row>)
    ensures r.Some? <==> CostColumnsByCents(req.costAnalysis).Some? && req.scores.JDict? && req.indicators.JDict?
  {
    RowWith(req, createdAt, CostColumnsByCents(req.costAnalysis))
  }

  /** The `llm_router` table. `reachable` stands for the insert succeeding. */
  class Analytics {
    var rows: seq<Row>

    constructor ()
      ensures rows == []
    {
      rows := [];
    }

    /** `save_llm_data`: exactly one row is inserted, or nothing when the
        row cannot be built or the insert fails, and the call then answers
        `None`. */
    method SaveLlmData(req: Request, createdAt: string, reachable: bool) returns (inserted: Option<Row>)
      modifies this
      ensures inserted.Some? <==> reachable && BuildRow(req, createdAt).Some?
      ensures inserted.Some? ==> inserted == BuildRow(req, createdAt) && rows == old(rows) + [inserted.value]
      ensures inserted.None? ==> rows == old(rows)
    {
      var row := BuildRow(req, createdAt);
      if row.None? || !reachable {
        return None;
      }
      rows := rows + [row.value];
      inserted := row;
    }
  }

  /** The dictionary `analyze_cost` returns for a report. */
  function ReportJson(r: CostAnalyzer.CostReport): Py.Json {
    Py.JDict([
      ("model", Py.JStr(r.model)),
      ("model_info", Py.JDict([("name", Py.JStr(r.info.name)), ("input_price", Py.JNum(r.info.inputPrice)),
                               ("output_price", Py.JNum(r.info.outputPrice)), ("doc_url", Py.JStr(r.info.docUrl))])),
      ("tokens", TokensJson(r.tokens)),
      ("costs", CostsJson(r.usd, r.brl)),
      ("pricing", Py.JDict([("input_price_per_1k", Py.JNum(r.inputPricePer1k)),
                            ("output_price_per_1k", Py.JNum(r.outputPricePer1k))]))])
  }

  function TokensJson(t: CostAnalyzer.Tokens): Py.Json {
    Py.JDict([("prompt", Py.JNum(t.prompt as real)), ("completion", Py.JNum(t.completion as real)),
              ("total", Py.JNum(t.total as real))])
  }

  function CostsJson(usd: CostAnalyzer.Money, brl: CostAnalyzer.Money): Py.Json {
    Py.JDict([("usd", MoneyJson(usd)), ("brl", MoneyJson(brl))])
  }

  function MoneyJson(m: CostAnalyzer.Money): Py.Json {
    Py.JDict([("cents", Py.JNum(m.cents as real)), ("dollars", Py.JNum(m.units as real)),
              ("formatted", Py.JStr(m.formatted))])
  }

  /** `int` of a whole number is that number. */
  lemma TruncOfInt(k: int)
    ensures CostAnalyzer.Trunc(k as real) == k
  {
  }

  /** The sub-dicts of a report are found under their keys. */
  lemma {:induction false} PartsOfReport(r: CostAnalyzer.CostReport)
    ensures PartsOf(ReportJson(r)) == Some(CostParts(TokensJson(r.tokens), MoneyJson(r.usd), MoneyJson(r.brl)))
  {
    ReportEntries(r);
    var costs := CostsJson(r.usd, r.brl);
    Py.LookupFirst(costs.fields, "usd", 0);
    Py.LookupFirst(costs.fields, "brl", 1);
  }

  /** The tokens and the costs of a report are found under their keys. */
  lemma {:induction false} ReportEntries(r: CostAnalyzer.CostReport)
    ensures GetOf(ReportJson(r), "tokens", Py.JDict([])) == Some(TokensJson(r.tokens))
    ensures GetOf(ReportJson(r), "costs", Py.JDict([])) == Some(CostsJson(r.usd, r.brl))
  {
    var fields := ReportJson(r).fields;
    Py.LookupFirst(fields, "tokens", 2);
    Py.LookupFirst(fields, "costs", 3);
  }

  /** The token columns of a report are its token counts. */
  lemma {:induction false} TokenColumnsOfReport(r: CostAnalyzer.CostReport)
    ensures TokenColumns(TokensJson(r.tokens)) == Some((r.tokens.prompt as int, r.tokens.completion as int,
                                                             r.tokens.total as int))
  {
    var tokens := TokensJson(r.tokens);
    Py.LookupFirst(tokens.fields, "prompt", 0);
    Py.LookupFirst(tokens.fields, "completion", 1);
    Py.LookupFirst(tokens.fields, "total", 2);
    TruncOfInt(r.tokens.prompt);
    TruncOfInt(r.tokens.completion);
    TruncOfInt(r.tokens.total);
  }

  /** The fields of a sum of money are read back as stored. */
  lemma {:induction false} MoneyFields(m: CostAnalyzer.Money)
    ensures FloatField(MoneyJson(m), "cents") == Some(m.cents as real)
    ensures FloatField(MoneyJson(m), "dollars") == Some(m.units as real)
    ensures IntField(MoneyJson(m), "cents") == Some(m.cents)
  {
    Py.LookupFirst(MoneyJson(m).fields, "cents", 0);
    Py.LookupFirst(MoneyJson(m).fields, "dollars", 1);
    TruncOfInt(m.cents);
  }

  /** The columns of two sums of money and a token dict, totals read from
      the `"dollars"` fields. */
  lemma {:induction false} DollarColumnsOfMoney(tokens: Py.Json, usd: CostAnalyzer.Money, brl: CostAnalyzer.Money,
                                                counts: (int, int, int))
    requires TokenColumns(tokens) == Some(counts)
    ensures var parts := CostParts(tokens, MoneyJson(usd), MoneyJson(brl));
      Columns(parts, FloatField(parts.usd, "dollars"), FloatField(parts.brl, "dollars"))
        == Some(Costs(usd.units as real, brl.units as real, usd.cents, counts.0, counts.1, counts.2))
  {
    MoneyFields(usd);
    MoneyFields(brl);
  }

  /** The same, with the totals read from the `"cents"` fields. */
  lemma {:induction false} CentColumnsOfMoney(tokens: Py.Json, usd: CostAnalyzer.Money, brl: CostAnalyzer.Money,
                                              counts: (int, int, int))
    requires TokenColumns(tokens) == Some(counts)
    ensures var parts := CostParts(tokens, MoneyJson(usd), MoneyJson(brl));
      Columns(parts, Hundredths(FloatField(parts.usd, "cents")), Hundredths(FloatField(parts.brl, "cents")))
        == Some(Costs(usd.cents as real / 100.0, brl.cents as real / 100.0, usd.cents, counts.0, counts.1, counts.2))
  {
    MoneyFields(usd);
    WholeOfCents(usd);
    WholeOfCents(brl);
  }

  /** The `"cents"` field of a sum of money, over a hundred. */
  lemma {:induction false} WholeOfCents(m: CostAnalyzer.Money)
    ensures Hundredths(FloatField(MoneyJson(m), "cents")) == Some(m.cents as real / 100.0)
  {
    MoneyFields(m);
  }

  /** Fed the report of `analyze_cost`, the row holds its token counts, its
      US dollar cents, and its whole dollars and whole reais as the totals. */
  lemma {:induction false} CostColumnsOfReport(r: CostAnalyzer.CostReport)
    ensures CostColumns(ReportJson(r)) == Some(Costs(r.usd.units as real, r.brl.units as real, r.usd.cents,
                                                     r.tokens.prompt, r.tokens.completion, r.tokens.total))
  {
    PartsOfReport(r);
    TokenColumnsOfReport(r);
    var counts := (r.tokens.prompt as int, r.tokens.completion as int, r.tokens.total as int);
    DollarColumnsOfMoney(TokensJson(r.tokens), r.usd, r.brl, counts);
  }

  /** Read from the cents fields, the totals of a report are its cents
      over a hundred. */
  lemma {:induction false} CostColumnsByCentsOfReport(r: CostAnalyzer.CostReport)
    ensures CostColumnsByCents(ReportJson(r)) == Some(Costs(r.usd.cents as real / 100.0, r.brl.cents as real / 100.0,
                                                            r.usd.cents, r.tokens.prompt, r.tokens.completion,
                                                            r.tokens.total))
  {
    PartsOfReport(r);
    TokenColumnsOfReport(r);
    var counts := (r.tokens.prompt as int, r.tokens.completion as int, r.tokens.total as int);
    CentColumnsOfMoney(TokensJson(r.tokens), r.usd, r.brl, counts);
  }

  /** A tokenizer that counts a thousand tokens in every text. */
  function Thousand(s: string): Option<nat> {
    Some(1000)
  }

  /** The report of a gpt call of a thousand prompt and a thousand
      completion tokens: four US cents, under one dollar and one real. */
  lemma {:induction false} GptThousandReport(prompt: string, response: string, format: CostAnalyzer.Formatter)
    ensures var r := CostAnalyzer.AnalyzeCost("gpt", Some(prompt), Some(response), Thousand, format);
      r.usd.cents == 4 && r.usd.units == 0 && r.brl.units == 0
  {
    var r := CostAnalyzer.AnalyzeCost("gpt", Some(prompt), Some(response), Thousand, format);
    assert CostAnalyzer.GetModelInfo("gpt") == CostAnalyzer.GptInfo;
    assert CostAnalyzer.UsdCost(CostAnalyzer.GptInfo, 1000, 1000) == 0.04;
    assert r.usd.cents == CostAnalyzer.Trunc(4.0);
    TruncOfInt(4);
  }

  /** As written, a gpt call of a thousand prompt tokens and a thousand
      completion tokens costs four US cents, yet its row records a total
      of zero dollars and zero reais. */
  lemma {:induction false} SubDollarCostRecordedAsZero(prompt: string, response: string, format: CostAnalyzer.Formatter)
    ensures var r := CostAnalyzer.AnalyzeCost("gpt", Some(prompt), Some(response), Thousand, format);
      && r.usd.cents == 4
      && CostColumns(ReportJson(r)).Some?
      && CostColumns(ReportJson(r)).value.usd == 0.0
      && CostColumns(ReportJson(r)).value.brl == 0.0
  {
    var r := CostAnalyzer.AnalyzeCost("gpt", Some(prompt), Some(response), Thousand, format);
    GptThousandReport(prompt, response, format);
    CostColumnsOfReport(r);
  }

  /** Cost columns whose totals lie less than a cent below a cost in US
      dollars and its conversion to reais. */
  predicate WithinACent(costs: Option<Costs>, usd: real) {
    && costs.Some?
    && costs.value.usd <= usd < costs.value.usd + 0.01
    && costs.value.brl <= usd * CostAnalyzer.UsdToBrl < costs.value.brl + 0.01
  }

  /** Totals read from the cents fields lie less than a cent below the
      amounts the cents were truncated from. */
  lemma {:induction false} ByCentsWithinACent(r: CostAnalyzer.CostReport, usd: real)
    requires usd >= 0.0
    requires r.usd.cents == CostAnalyzer.Trunc(usd * 100.0)
    requires r.brl.cents == CostAnalyzer.Trunc(usd * CostAnalyzer.UsdToBrl * 100.0)
    ensures WithinACent(CostColumnsByCents(ReportJson(r)), usd)
  {
    CostColumnsByCentsOfReport(r);
    var c := r.usd.cents;
    assert c as real <= usd * 100.0 < c as real + 1.0;
    var cb := r.brl.cents;
    assert cb as real <= usd * CostAnalyzer.UsdToBrl * 100.0 < cb as real + 1.0;
  }

  /** Read from the cents fields, the recorded totals of a report of
      `analyze_cost` are its costs in US dollars and in reais, less than a
      cent below each. */
  lemma {:induction false} CentsTotalsWithinACent(model: string, prompt: string, response: string,
                                                 tokenizer: CostAnalyzer.Tokenizer, format: CostAnalyzer.Formatter)
    ensures var r := CostAnalyzer.AnalyzeCost(model, Some(prompt), Some(response), tokenizer, format);
      WithinACent(CostColumnsByCents(ReportJson(r)), CostAnalyzer.UsdCost(r.info, r.tokens.prompt, r.tokens.completion))
  {
    var r := CostAnalyzer.AnalyzeCost(model, Some(prompt), Some(response), tokenizer, format);
    var usd := CostAnalyzer.UsdCost(r.info, r.tokens.prompt, r.tokens.completion);
    ReportCentsOfCost(model, prompt, response, tokenizer, format);
    ByCentsWithinACent(r, usd);
  }

  /** The cents of a report of `analyze_cost` truncate its non-negative
      cost in US dollars and in reais. */
  lemma {:induction false} ReportCentsOfCost(model: string, prompt: string, response: string,
                                            tokenizer: CostAnalyzer.Tokenizer, format: CostAnalyzer.Formatter)
    ensures var r := CostAnalyzer.AnalyzeCost(model, Some(prompt), Some(response), tokenizer, format);
      var usd := CostAnalyzer.UsdCost(r.info, r.tokens.prompt, r.tokens.completion);
      && usd >= 0.0
      && r.usd.cents == CostAnalyzer.Trunc(usd * 100.0)
      && r.brl.cents == CostAnalyzer.Trunc(usd * CostAnalyzer.UsdToBrl * 100.0)
  {
    var r := CostAnalyzer.AnalyzeCost(model, Some(prompt), Some(response), tokenizer, format);
    assert 0.0 < r.info.inputPrice <= r.info.outputPrice;
  }
}
