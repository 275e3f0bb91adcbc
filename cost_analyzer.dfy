/** Token counting and the price of one call: token counts to US dollars
    through the per-1k prices of the model, then to reais, with the cents
    and whole-unit figures truncated to integers. */
module CostAnalyzer {
  import opened Wrappers
  import opened Backends
  import Py
  import PyStr

  /** A price-table entry: prices are US dollars per 1000 tokens. */
  datatype ModelInfo = ModelInfo(name: string, inputPrice: real, outputPrice: real, docUrl: string)

  const GptInfo: ModelInfo := ModelInfo("gpt-4-turbo-preview", 0.01, 0.03, "https://openai.com/chatgpt/pricing/")

  /** `get_model_info`: the entry of a known model id, the gpt entry
      otherwise; gpt is the dearest entry on both prices. */
  function GetModelInfo(model: string): (info: ModelInfo)
    ensures FromName(model).None? || model == "gpt" ==> info == GptInfo
    ensures FromName(model).Some? && model != "gpt" ==> info.name != GptInfo.name
    ensures 0.0 < info.inputPrice <= info.outputPrice
    ensures info.inputPrice <= GptInfo.inputPrice && info.outputPrice <= GptInfo.outputPrice
  {
    match FromName(model)
    case Some(Gemini) => ModelInfo("gemini-pro", 0.00025, 0.0005, "https://ai.google.dev/gemini-api/docs/pricing")
    case Some(Mistral) => ModelInfo("mistral-large-latest", 0.008, 0.024, "https://mistral.ai/products/la-plateforme#pricing")
    case Some(Deepseek) => ModelInfo("deepseek-chat", 0.002, 0.006, "https://api-docs.deepseek.com/quick_start/pricing/")
    case _ => GptInfo
  }

  /** An external tokenizer: the token count of a text, or `None` when it fails. */
  type Tokenizer = string -> Option<nat>

  /** `count_tokens`: the tokenizer's count, or twice the number of
      whitespace words when the tokenizer fails. A missing text (`None`)
      makes the fallback's `split` raise. */
  function CountTokens(text: Option<string>, tokenizer: Tokenizer): (r: Result<nat, Py.PyError>)
    ensures text.None? <==> r.Failure?
    ensures text.Some? && tokenizer(text.value).Some? ==> r.value == tokenizer(text.value).value
    ensures text.Some? && tokenizer(text.value).None? ==> r.value == 2 * |PyStr.Words(text.value)|
  {
    match text
    case None => Result<nat, Py.PyError>.Failure(Py.AttributeError(Py.AttributeMessage("NoneType", "split")))
    case Some(s) =>
      match tokenizer(s)
      case Some(n) => Success(n)
      case None => Success(|PyStr.Words(s)| * 2)
  }

  /** `int(x)`: truncation toward zero. */
  function Trunc(x: real): (n: int)
    ensures x >= 0.0 ==> n >= 0 && n as real <= x < n as real + 1.0
    ensures x < 0.0 ==> n <= 0 && n as real - 1.0 < x <= n as real
  {
    if x >= 0.0 then x.Floor else -((-x).Floor)
  }

  /** A sum of money in cents and whole units, and its display text. */
  datatype Money = Money(cents: int, units: int, formatted: string)

  datatype Tokens = Tokens(prompt: nat, completion: nat, total: nat)

  /** The record `analyze_cost` returns. */
  datatype CostReport = CostReport(
    model: string,
    info: ModelInfo,
    tokens: Tokens,
    usd: Money,
    brl: Money,
    inputPricePer1k: real,
    outputPricePer1k: real)

  const UsdToBrl: real := 5.0

  /** Fixed-point display of a number with the given count of decimals. */
  type Formatter = (real, nat) -> string

  /** The price in US dollars of a call with the given token counts. */
  function UsdCost(info: ModelInfo, promptTokens: nat, completionTokens: nat): (usd: real)
    ensures info.inputPrice >= 0.0 && info.outputPrice >= 0.0 ==> usd >= 0.0
  {
    (promptTokens as real / 1000.0) * info.inputPrice + (completionTokens as real / 1000.0) * info.outputPrice
  }

  /** The result of the `except` branch: everything zero. */
  function ZeroReport(model: string): (r: CostReport)
    ensures r.tokens == Tokens(0, 0, 0)
    ensures r.usd == Money(0, 0, "$0.00") && r.brl == Money(0, 0, "R$0.00")
    ensures r.model == model
    ensures r.info == ModelInfo("unknown", 0.0, 0.0, "")
    ensures r.inputPricePer1k == 0.0 && r.outputPricePer1k == 0.0
  {
    CostReport(model, ModelInfo("unknown", 0.0, 0.0, ""), Tokens(0, 0, 0),
               Money(0, 0, "$0.00"), Money(0, 0, "R$0.00"), 0.0, 0.0)
  }

  /** `analyze_cost`. */
  function AnalyzeCost(model: string, prompt: Option<string>, response: Option<string>,
                       tokenizer: Tokenizer, format: Formatter): (r: CostReport)
    ensures r.model == model
    ensures prompt.None? || response.None? ==> r == ZeroReport(model)
    ensures prompt.Some? && response.Some? ==>
      var info := GetModelInfo(model);
      var p := CountTokens(prompt, tokenizer).value;
      var c := CountTokens(response, tokenizer).value;
      var usd := UsdCost(info, p, c);
      && r.info == info && r.tokens == Tokens(p, c, p + c)
      && r.inputPricePer1k == info.inputPrice && r.outputPricePer1k == info.outputPrice
      && r.usd.cents == Trunc(usd * 100.0) && r.usd.units == Trunc(usd)
      && r.brl.cents == Trunc(usd * UsdToBrl * 100.0) && r.brl.units == Trunc(usd * UsdToBrl)
      && PyStr.StartsWith(r.usd.formatted, "$") && PyStr.StartsWith(r.brl.formatted, "R$")
      && r.usd.cents >= 0 && r.brl.cents >= 0
  {
    var promptTokens := CountTokens(prompt, tokenizer);
    var completionTokens := CountTokens(response, tokenizer);
    if promptTokens.Failure? || completionTokens.Failure? then ZeroReport(model)
    else
      var p := promptTokens.value;
      var c := completionTokens.value;
      var info := GetModelInfo(model);
      var total := UsdCost(info, p, c);
      var totalBrl := total * UsdToBrl;
      var usdText := "$" + format(total, 6);
      var brlText := "R$" + format(totalBrl, 2);
      assert usdText[..1] == "$" && brlText[..2] == "R$";
      CostReport(model, info, Tokens(p, c, p + c),
                 Money(Trunc(total * 100.0), Trunc(total), usdText),
                 Money(Trunc(totalBrl * 100.0), Trunc(totalBrl), brlText),
                 info.inputPrice, info.outputPrice)
  }

  /** The truncated cents of a non-negative amount agree with its truncated
      whole units: `100 * int(x) <= int(100 * x) < 100 * int(x) + 100`. */
  lemma {:induction false} CentsWithinUnits(x: real)
    requires x >= 0.0
    ensures 100 * Trunc(x) <= Trunc(x * 100.0) < 100 * Trunc(x) + 100
  {
    var u := Trunc(x);
    var c := Trunc(x * 100.0);
    assert u as real <= x < u as real + 1.0;
    assert (100 * u) as real <= x * 100.0 < (100 * u + 100) as real;
    assert c as real <= x * 100.0 < c as real + 1.0;
  }

  /** Every report's cents figures agree with its whole-unit figures. */
  lemma ReportCentsAgree(model: string, prompt: Option<string>, response: Option<string>,
                         tokenizer: Tokenizer, format: Formatter)
    ensures var r := AnalyzeCost(model, prompt, response, tokenizer, format);
      && 100 * r.usd.units <= r.usd.cents < 100 * r.usd.units + 100
      && 100 * r.brl.units <= r.brl.cents < 100 * r.brl.units + 100
  {
    if prompt.Some? && response.Some? {
      var info := GetModelInfo(model);
      var usd := UsdCost(info, CountTokens(prompt, tokenizer).value, CountTokens(response, tokenizer).value);
      CentsWithinUnits(usd);
      CentsWithinUnits(usd * UsdToBrl);
    }
  }

  lemma ScaleMonotone(k: real, x: real, y: real)
    requires k >= 0.0 && x <= y
    ensures k * x <= k * y
  {
    assert k * y - k * x == k * (y - x);
  }

  /** A dearer model never makes the same call cheaper: with the same token
      counts, the cost grows with both prices. */
  lemma {:induction false} CostGrowsWithPrices(a: ModelInfo, b: ModelInfo, p: nat, c: nat)
    requires a.inputPrice <= b.inputPrice && a.outputPrice <= b.outputPrice
    ensures UsdCost(a, p, c) <= UsdCost(b, p, c)
  {
    var kp := p as real / 1000.0;
    var kc := c as real / 1000.0;
    var x1, y1 := kp * a.inputPrice, kp * b.inputPrice;
    var x2, y2 := kc * a.outputPrice, kc * b.outputPrice;
    ScaleMonotone(kp, a.inputPrice, b.inputPrice);
    ScaleMonotone(kc, a.outputPrice, b.outputPrice);
    assert x1 <= y1 && x2 <= y2;
    assert UsdCost(a, p, c) == x1 + x2;
    assert UsdCost(b, p, c) == y1 + y2;
  }
}
