/** The indicator-based classifier: five yes/no indicators of a prompt raise
    the scores of gemini, mistral, deepseek and (when available or asked
    for) gpt, and the best normalised score wins. Scores are kept in tenths,
    as integers, so that 0.3 is 3. */
module PromptClassifier {
  import opened Wrappers
  import PyStr
  import Ranking
  import opened Backends

  const ComplexTerms: seq<string> := [
    "explique", "detalhe", "análise", "compare", "contraste",
    "discuta", "avalie", "critique", "sintetize", "filosófico",
    "profund", "complex", "abrangente"
  ]

  const TechnicalTerms: seq<string> := [
    "código", "programa", "função", "api", "algoritmo", "cloud", "aws", "azure",
    "docker", "kubernetes", "linux", "servidor", "frontend", "backend", "devops",
    "javascript", "python", "java", "c++", "sql", "banco de dados", "framework",
    "física", "química", "biologia", "matemática", "equação", "fórmula",
    "científic", "quantum", "átomo", "molecular", "genética", "célula",
    "médic", "clínic", "doença", "patologia", "diagnóstico", "tratamento",
    "anatomia", "fisiologia", "cirurgia", "farmacologia", "terapia",
    "finanças", "economi", "contabilidade", "mercado", "ações", "investimento",
    "bolsa", "taxa", "juros", "fiscal", "tributári", "imposto", "lucro", "custo",
    "engenhari", "estrutura", "mecânica", "elétrica", "civil", "construção",
    "projeto", "design", "cad", "material", "resistência", "torque"
  ]

  const AnalyticalTerms: seq<string> := [
    "analis", "compar", "contrast", "avali", "critic", "pros e contras",
    "vantagens", "desvantagens", "melhor", "pior", "recomend", "aconselharia",
    "por que", "razão", "causa", "efeito", "impacto", "consequência",
    "evidência", "argumento", "justific", "demonstr", "prov"
  ]

  /** The words that put gpt into the running before any indicator is looked at. */
  const AudioWords: seq<string> := ["áudio", "ouvir", "escutar", "voz", "som"]

  const AudioTerms: seq<string> := AudioWords + [
    "narração", "narrar",
    "canção", "música", "falar", "pronuncia", "sotaque", "falando",
    "grave", "agudo", "timbre", "entonação", "dicção", "cantado",
    "melodia", "speaker", "fone", "alto-falante", "rádio", "podcasts",
    "audiobook", "livro falado", "dublagem", "tonalidade", "sonoro"
  ]

  /** Sentence marks matched by `[.!?]`. */
  const SentenceMarks: set<char> := {'.', '!', '?'}

  /** `sum(flags)`: how many of the flags hold. */
  function CountTrue(flags: seq<bool>): (n: nat)
    ensures n <= |flags|
    decreases |flags|
  {
    if |flags| == 0 then 0 else (if flags[0] then 1 else 0) + CountTrue(flags[1..])
  }

  /** At least two flags hold exactly when two different positions hold. */
  lemma {:induction false} CountTrueTwo(flags: seq<bool>)
    ensures CountTrue(flags) >= 2 <==> exists i, j :: 0 <= i < j < |flags| && flags[i] && flags[j]
    decreases |flags|
  {
    if |flags| > 0 {
      var tail := flags[1..];
      CountTrueTwo(tail);
      CountTrueOne(tail);
      if CountTrue(flags) >= 2 {
        if flags[0] {
          var j :| 0 <= j < |tail| && tail[j];
          assert flags[0] && flags[j + 1];
        } else {
          var i, j :| 0 <= i < j < |tail| && tail[i] && tail[j];
          assert flags[i + 1] && flags[j + 1];
        }
      }
      if exists i, j :: 0 <= i < j < |flags| && flags[i] && flags[j] {
        var i, j :| 0 <= i < j < |flags| && flags[i] && flags[j];
        assert tail[j - 1];
        if i > 0 {
          assert tail[i - 1];
        }
      }
    }
  }

  /** At least one flag holds exactly when some position holds. */
  lemma {:induction false} CountTrueOne(flags: seq<bool>)
    ensures CountTrue(flags) >= 1 <==> exists i :: 0 <= i < |flags| && flags[i]
    decreases |flags|
  {
    if |flags| > 0 {
      CountTrueOne(flags[1..]);
      if exists i :: 0 <= i < |flags| && flags[i] {
        var i :| 0 <= i < |flags| && flags[i];
        if i > 0 {
          assert flags[1..][i - 1];
        }
      }
      if exists i :: 0 <= i < |flags[1..]| && flags[1..][i] {
        var i :| 0 <= i < |flags[1..]| && flags[1..][i];
        assert flags[i + 1];
      }
    }
  }

  /** At least three flags hold exactly when three different positions hold. */
  lemma {:induction false} CountTrueThree(flags: seq<bool>)
    ensures CountTrue(flags) >= 3 <==>
      exists i, j, k :: 0 <= i < j < k < |flags| && flags[i] && flags[j] && flags[k]
  {
    if CountTrue(flags) >= 3 {
      ThreeFound(flags);
    }
    if exists i, j, k :: 0 <= i < j < k < |flags| && flags[i] && flags[j] && flags[k] {
      var i, j, k :| 0 <= i < j < k < |flags| && flags[i] && flags[j] && flags[k];
      ThreeCounted(flags, i, j, k);
    }
  }

  /** Three flags counted are found at three different positions. */
  lemma {:induction false} ThreeFound(flags: seq<bool>)
    requires CountTrue(flags) >= 3
    ensures exists i, j, k :: 0 <= i < j < k < |flags| && flags[i] && flags[j] && flags[k]
    decreases |flags|
  {
    var tail := flags[1..];
    if flags[0] {
      CountTrueTwo(tail);
      var j, k :| 0 <= j < k < |tail| && tail[j] && tail[k];
      assert flags[0] && flags[j + 1] && flags[k + 1];
    } else {
      ThreeFound(tail);
      var i, j, k :| 0 <= i < j < k < |tail| && tail[i] && tail[j] && tail[k];
      assert flags[i + 1] && flags[j + 1] && flags[k + 1];
    }
  }

  /** Three different positions that hold are counted. */
  lemma {:induction false} ThreeCounted(flags: seq<bool>, i: nat, j: nat, k: nat)
    requires i < j < k < |flags| && flags[i] && flags[j] && flags[k]
    ensures CountTrue(flags) >= 3
    decreases |flags|
  {
    var tail := flags[1..];
    assert tail[j - 1] && tail[k - 1];
    if i > 0 {
      ThreeCounted(tail, i - 1, j - 1, k - 1);
    } else {
      CountTrueTwo(tail);
    }
  }

  /** The four signs of complexity: long, wordy, several sentences, a
      complexity term. */
  function ComplexSigns(prompt: string): seq<bool> {
    [ |prompt| > 300,
      |PyStr.Words(prompt)| > 50,
      PyStr.CountChars(prompt, SentenceMarks) > 3,
      PyStr.AnyIn(PyStr.Lower(prompt), ComplexTerms) ]
  }

  /** `sum(flags) >= 2`: two different positions hold. */
  function AtLeastTwo(flags: seq<bool>): (r: bool)
    ensures r <==> exists i, j :: 0 <= i < j < |flags| && flags[i] && flags[j]
  {
    CountTrueTwo(flags);
    CountTrue(flags) >= 2
  }

  /** `sum(flags) >= 3`: three different positions hold. */
  function AtLeastThree(flags: seq<bool>): (r: bool)
    ensures r <==> exists i, j, k :: 0 <= i < j < k < |flags| && flags[i] && flags[j] && flags[k]
  {
    CountTrueThree(flags);
    CountTrue(flags) >= 3
  }

  /** `is_complex`: at least two of the four signs hold. */
  function IsComplex(prompt: string): (r: bool)
    ensures |prompt| > 300 && PyStr.AnyIn(PyStr.Lower(prompt), ComplexTerms) ==> r
  {
    assert |prompt| > 300 && PyStr.AnyIn(PyStr.Lower(prompt), ComplexTerms) ==>
      ComplexSigns(prompt)[0] && ComplexSigns(prompt)[3];
    AtLeastTwo(ComplexSigns(prompt))
  }

  /** Some term occurs in the lower-cased prompt: the list of the terms
      found has at least one entry. */
  function Mentions(prompt: string, terms: seq<string>): (r: bool)
    ensures r <==> PyStr.AnyIn(PyStr.Lower(prompt), terms)
  {
    PyStr.CountIn(PyStr.Lower(prompt), terms) >= 1
  }

  /** `is_technical`: some technical term occurs in the lower-cased prompt. */
  function IsTechnical(prompt: string): (r: bool)
    ensures r <==> PyStr.AnyIn(PyStr.Lower(prompt), TechnicalTerms)
  {
    Mentions(prompt, TechnicalTerms)
  }

  /** `is_analytical`: some analytical term occurs in the lower-cased prompt. */
  function IsAnalytical(prompt: string): (r: bool)
    ensures r <==> PyStr.AnyIn(PyStr.Lower(prompt), AnalyticalTerms)
  {
    Mentions(prompt, AnalyticalTerms)
  }

  /** `is_audio_related`: some audio term occurs in the lower-cased prompt. */
  function IsAudioRelated(prompt: string): (r: bool)
    ensures r <==> PyStr.AnyIn(PyStr.Lower(prompt), AudioTerms)
  {
    Mentions(prompt, AudioTerms)
  }

  /** The six signs of simplicity. */
  function SimpleSigns(prompt: string): seq<bool> {
    [ |prompt| < 100,
      |PyStr.Words(prompt)| < 20,
      PyStr.CountChars(prompt, SentenceMarks) <= 1,
      !IsComplex(prompt),
      !IsTechnical(prompt),
      !IsAnalytical(prompt) ]
  }

  /** `is_simple`: at least three of the six signs hold. */
  function IsSimple(prompt: string): (r: bool)
    ensures var signs := SimpleSigns(prompt); signs[0] && signs[1] && signs[2] ==> r
  {
    FirstThreeSuffice(SimpleSigns(prompt));
    AtLeastThree(SimpleSigns(prompt))
  }

  /** Three signs at the front are enough. */
  lemma FirstThreeSuffice(flags: seq<bool>)
    requires |flags| >= 3
    ensures flags[0] && flags[1] && flags[2] ==> AtLeastThree(flags)
  {
    if flags[0] && flags[1] && flags[2] {
      ThreeCounted(flags, 0, 1, 2);
    }
  }

  /** The "indicators" dictionary. */
  datatype Indicators = Indicators(complex: bool, technical: bool, analytical: bool, simple: bool, audioRelated: bool)

  function IndicatorsOf(prompt: string): Indicators {
    Indicators(IsComplex(prompt), IsTechnical(prompt), IsAnalytical(prompt), IsSimple(prompt), IsAudioRelated(prompt))
  }

  /** Everything `classify_prompt` returns: the chosen backend, its
      confidence, and the normalised scores in dictionary order. */
  datatype PromptClass = PromptClass(model: Model, confidence: real, scores: seq<(Model, real)>, indicators: Indicators)

  function Sum(xs: seq<(Model, int)>): int
    decreases |xs|
  {
    if |xs| == 0 then 0 else xs[0].1 + Sum(xs[1..])
  }

  function SumReal(xs: seq<(Model, real)>): real
    decreases |xs|
  {
    if |xs| == 0 then 0.0 else xs[0].1 + SumReal(xs[1..])
  }

  function Keys(xs: seq<(Model, int)>): (ks: seq<real>)
    ensures |ks| == |xs| && forall i :: 0 <= i < |xs| ==> ks[i] == xs[i].1 as real
  {
    seq(|xs|, i requires 0 <= i < |xs| => xs[i].1 as real)
  }

  /** `{m: s / total for m, s in scores.items()}`. */
  function Normalise(xs: seq<(Model, int)>, total: int): (ys: seq<(Model, real)>)
    requires total > 0
    ensures |ys| == |xs|
    ensures forall i :: 0 <= i < |xs| ==> ys[i] == (xs[i].0, xs[i].1 as real / total as real)
  {
    seq(|xs|, i requires 0 <= i < |xs| => (xs[i].0, xs[i].1 as real / total as real))
  }

  /** Dividing every score by the same total divides their sum by it. */
  lemma {:induction false} SumNormalise(xs: seq<(Model, int)>, total: int)
    requires total > 0
    ensures SumReal(Normalise(xs, total)) == Sum(xs) as real / total as real
    decreases |xs|
  {
    if |xs| > 0 {
      SumNormalise(xs[1..], total);
      assert Normalise(xs, total)[1..] == Normalise(xs[1..], total);
    }
  }

  /** Positive scores stay positive when normalised. */
  lemma {:induction false} SumPositive(xs: seq<(Model, int)>)
    requires forall i :: 0 <= i < |xs| ==> xs[i].1 > 0
    ensures |xs| > 0 ==> Sum(xs) > 0
    ensures forall i :: 0 <= i < |xs| ==> xs[i].1 <= Sum(xs)
    decreases |xs|
  {
    if |xs| > 0 {
      SumPositive(xs[1..]);
      forall i | 1 <= i < |xs| ensures xs[i].1 <= Sum(xs) {
        assert xs[i] == xs[1..][i - 1];
      }
    }
  }

  /** The position of a backend in the score dictionary. */
  function Position(m: Model): nat {
    match m
    case Gemini => 0
    case Mistral => 1
    case Deepseek => 2
    case Gpt => 3
  }

  /** `x + d` for a dictionary entry that is only updated when present. */
  function AddIfPresent(x: Option<int>, d: int): Option<int> {
    if x.Some? then Some(x.value + d) else None
  }

  /** `d` tenths when the indicator holds, and none otherwise. */
  function If(b: bool, d: int): int {
    if b then d else 0
  }

  /** The score table of `classify_prompt`, in tenths and in dictionary
      order: 3 for each of gemini, mistral and deepseek, plus the boosts of
      the indicators that hold; gpt only when its key is configured (1) or
      one of `AudioWords` occurs (4), with its own boosts. Every score is
      positive and sits at the position `Position` gives its backend. */
  function Tenths(gptKey: bool, audioWord: bool, ind: Indicators): (table: seq<(Model, int)>)
    ensures |table| >= 3 && table[0].0 == Gemini && table[1].0 == Mistral && table[2].0 == Deepseek
    ensures |table| == if gptKey || audioWord then 4 else 3
    ensures |table| == 4 ==> table[3].0 == Gpt
    ensures forall i :: 0 <= i < |table| ==> Position(table[i].0) == i
    ensures forall i :: 0 <= i < |table| ==> table[i].1 > 0
  {
    [ (Gemini, 3 + If(ind.simple, 3)),
      (Mistral, 3 + If(ind.technical, 3) + If(ind.simple, 2)),
      (Deepseek, 3 + If(ind.complex, 3) + If(ind.technical, 2) + If(ind.analytical, 2)) ]
    + if gptKey || audioWord then
        [(Gpt, If(gptKey, 1) + If(audioWord, 4) + If(ind.complex, 2) + If(ind.analytical, 1) + If(ind.audioRelated, 4))]
      else []
  }

  /** The score table of `classify_prompt`, in tenths, built step by step
      from the indicators. `gptKey` says whether a GPT key is configured and
      `audioWord` whether one of `AudioWords` occurs in the prompt. */
  method ScoreTable(gptKey: bool, audioWord: bool, ind: Indicators) returns (table: seq<(Model, int)>)
    ensures table == Tenths(gptKey, audioWord, ind)
  {
    var gemini, mistral, deepseek := 3, 3, 3;
    var gpt: Option<int> := None;
    if gptKey {
      gpt := Some(1);
    }
    if audioWord {
      gpt := Some(gpt.GetOr(0) + 4);
    }

    if ind.complex {
      deepseek := deepseek + 3;
      gpt := AddIfPresent(gpt, 2);
    }
    if ind.technical {
      mistral := mistral + 3;
      deepseek := deepseek + 2;
    }
    if ind.analytical {
      gpt := AddIfPresent(gpt, 1);
      deepseek := deepseek + 2;
    }
    if ind.simple {
      gemini := gemini + 3;
      mistral := mistral + 2;
    }
    if ind.audioRelated && gpt.Some? {
      gpt := Some(gpt.value + 4);
    }

    table := [(Gemini, gemini), (Mistral, mistral), (Deepseek, deepseek)] + if gpt.Some? then [(Gpt, gpt.value)] else [];
    assert gpt.Some? <==> gptKey || audioWord;
  }

  /** When one of the five words that bring gpt in occurs, gpt gets both
      audio boosts: 4 tenths for the word and 4 more because the prompt is
      then audio related. */
  lemma AudioWordBoostsTwice(prompt: string, gptKey: bool)
    requires BringsGpt(prompt)
    ensures var ind := IndicatorsOf(prompt); var table := Tenths(gptKey, true, ind);
      |table| == 4 && table[3].1 == If(gptKey, 1) + 8 + If(ind.complex, 2) + If(ind.analytical, 1)
  {
  }

  /** A positive part of a total is a share in (0, 1]. */
  lemma ShareOfTotal(x: int, total: int)
    requires 0 < x <= total
    ensures 0.0 < x as real / total as real <= 1.0
  {
    assert x as real / total as real <= total as real / total as real;
  }

  /** `{m: s / total for m, s in scores.items()}` with `total = sum(scores.values())`:
      every share is positive and at most 1, and the shares add up to 1. */
  function Normalised(table: seq<(Model, int)>): (scores: seq<(Model, real)>)
    requires forall i :: 0 <= i < |table| ==> table[i].1 > 0
    ensures |scores| == |table|
    ensures forall i :: 0 <= i < |table| ==> scores[i].0 == table[i].0 && 0.0 < scores[i].1 <= 1.0
    ensures |table| > 0 ==> SumReal(scores) == 1.0
  {
    SharesInRange(table);
    SharesSumToOne(table);
    Normalise(table, Total(table))
  }

  /** `sum(scores.values())`, and 1 for an empty table. */
  function Total(table: seq<(Model, int)>): (total: int)
    requires forall i :: 0 <= i < |table| ==> table[i].1 > 0
    ensures total > 0 && forall i :: 0 <= i < |table| ==> table[i].1 <= total
  {
    SumPositive(table);
    if |table| > 0 then Sum(table) else 1
  }

  /** The shares of a table of positive scores lie in (0, 1]. */
  lemma {:induction false} SharesInRange(table: seq<(Model, int)>)
    requires forall i :: 0 <= i < |table| ==> table[i].1 > 0
    ensures var scores := Normalise(table, Total(table));
      forall i :: 0 <= i < |table| ==> 0.0 < scores[i].1 <= 1.0
  {
    var total := Total(table);
    var scores := Normalise(table, total);
    forall i | 0 <= i < |table| ensures 0.0 < scores[i].1 <= 1.0 {
      ShareOfTotal(table[i].1, total);
    }
  }

  /** The shares of a non-empty table of positive scores add up to 1. */
  lemma {:induction false} SharesSumToOne(table: seq<(Model, int)>)
    requires forall i :: 0 <= i < |table| ==> table[i].1 > 0
    ensures |table| > 0 ==> SumReal(Normalise(table, Total(table))) == 1.0
  {
    if |table| > 0 {
      var total := Total(table);
      SumNormalise(table, total);
      assert Sum(table) == total;
      assert total as real / total as real == 1.0;
    }
  }

  /** The normalised score dictionary and the backend `max` picks from it. */
  datatype Choice = Choice(model: Model, confidence: real, scores: seq<(Model, real)>)

  /** `max` over the normalised dictionary: the first backend with the best
      share, whose share is the confidence. */
  function Choose(table: seq<(Model, int)>): (c: Choice)
    requires |table| > 0
    requires forall i :: 0 <= i < |table| ==> table[i].1 > 0 && Position(table[i].0) == i
    ensures c.scores == Normalised(table)
    ensures var k := Position(c.model);
      && k < |c.scores| && c.scores[k] == (c.model, c.confidence)
      && (forall j :: 0 <= j < |c.scores| ==> c.scores[j].1 <= c.confidence)
      && (forall j :: 0 <= j < k ==> c.scores[j].1 < c.confidence)
  {
    var scores := Normalised(table);
    var shares := seq(|scores|, i requires 0 <= i < |scores| => scores[i].1);
    var k := Ranking.ArgMax(shares);
    assert forall j :: 0 <= j < |scores| ==> shares[j] == scores[j].1;
    Choice(scores[k].0, scores[k].1, scores)
  }

  /** What `classify_prompt` promises of its answer for the score table
      `table`: the three backends, and gpt exactly when it was brought in,
      in dictionary order; the table's shares, positive and adding up to
      one; and a choice that is the first backend with the largest share. */
  predicate Classified(res: PromptClass, table: seq<(Model, int)>)
    requires forall i :: 0 <= i < |table| ==> table[i].1 > 0
  {
    && res.scores == Normalised(table)
    && (forall i :: 0 <= i < |res.scores| ==> res.scores[i].1 > 0.0)
    && (|table| > 0 ==> SumReal(res.scores) == 1.0)
    && var k := Position(res.model);
    && k < |res.scores| && res.scores[k] == (res.model, res.confidence)
    && (forall j :: 0 <= j < |res.scores| ==> res.scores[j].1 <= res.confidence)
    && (forall j :: 0 <= j < k ==> res.scores[j].1 < res.confidence)
    && 0.0 < res.confidence <= 1.0
  }

  /** `classify_prompt`: the indicators, the score table, and the choice. */
  method ClassifyPrompt(prompt: string, gptKey: bool) returns (res: PromptClass)
    ensures res.indicators == IndicatorsOf(prompt)
    ensures Classified(res, Tenths(gptKey, BringsGpt(prompt), IndicatorsOf(prompt)))
  {
    var ind := IndicatorsOf(prompt);
    res := ClassifyIndicators(gptKey, BringsGpt(prompt), ind);
  }

  /** The score table of the indicators and the choice made from it. */
  method ClassifyIndicators(gptKey: bool, audioWord: bool, ind: Indicators) returns (res: PromptClass)
    ensures res.indicators == ind
    ensures Classified(res, Tenths(gptKey, audioWord, ind))
  {
    var table := ScoreTable(gptKey, audioWord, ind);
    var c := Choose(table);
    res := PromptClass(c.model, c.confidence, c.scores, ind);
  }

  /** A backend whose score is strictly above every other one is chosen:
      dividing by the same total keeps the order of the scores. */
  lemma {:induction false} StrictBestChosen(table: seq<(Model, int)>, k: nat)
    requires |table| > 0
    requires forall i :: 0 <= i < |table| ==> table[i].1 > 0 && Position(table[i].0) == i
    requires k < |table| && forall j :: 0 <= j < |table| && j != k ==> table[j].1 < table[k].1
    ensures Choose(table).model == table[k].0
  {
    var c := Choose(table);
    var i := Position(c.model);
    var total := Total(table);
    if i != k {
      assert c.scores[k].1 == table[k].1 as real / total as real;
      assert c.scores[i].1 == table[i].1 as real / total as real;
      ShareOrder(table[i].1, table[k].1, total);
      assert false;
    }
  }

  /** Shares of the same total keep the order of the scores. */
  lemma ShareOrder(x: int, y: int, total: int)
    requires x < y && total > 0
    ensures x as real / total as real < y as real / total as real
  {
    assert y as real / total as real - x as real / total as real == (y - x) as real / total as real;
  }

  /** Without gpt, a simple prompt that is neither technical, complex nor
      analytical goes to gemini (6 tenths against 5 and 3). */
  lemma SimplePromptGoesToGemini(ind: Indicators)
    requires ind.simple && !ind.technical && !ind.complex && !ind.analytical
    ensures Choose(Tenths(false, false, ind)).model == Gemini
  {
    StrictBestChosen(Tenths(false, false, ind), 0);
  }

  /** Without gpt, a technical prompt that is neither simple, complex nor
      analytical goes to mistral (6 tenths against 5 and 3). */
  lemma TechnicalPromptGoesToMistral(ind: Indicators)
    requires ind.technical && !ind.simple && !ind.complex && !ind.analytical
    ensures Choose(Tenths(false, false, ind)).model == Mistral
  {
    StrictBestChosen(Tenths(false, false, ind), 1);
  }

  /** A complex technical prompt that is not simple goes to deepseek when
      gpt is absent (at least 8 tenths against 6 and 3). */
  lemma ComplexTechnicalPromptGoesToDeepseek(ind: Indicators)
    requires ind.complex && ind.technical && !ind.simple
    ensures Choose(Tenths(false, false, ind)).model == Deepseek
  {
    StrictBestChosen(Tenths(false, false, ind), 2);
  }

  /** A prompt with one of the five audio words and none of the complex,
      technical or analytical signs goes to gpt: its two audio boosts give
      it at least 8 tenths, against at most 6. */
  lemma AudioPromptGoesToGpt(prompt: string, gptKey: bool)
    requires BringsGpt(prompt)
    requires !IsComplex(prompt) && !IsTechnical(prompt) && !IsAnalytical(prompt)
    ensures Choose(Tenths(gptKey, true, IndicatorsOf(prompt))).model == Gpt
  {
    var ind := IndicatorsOf(prompt);
    assert ind.audioRelated && !ind.complex && !ind.technical && !ind.analytical;
    AudioIndicatorsGoToGpt(ind, gptKey);
  }

  /** The same over the indicators: the audio word and the audio indicator
      give gpt 8 tenths or more, and nothing else reaches 7. */
  lemma AudioIndicatorsGoToGpt(ind: Indicators, gptKey: bool)
    requires ind.audioRelated && !ind.complex && !ind.technical && !ind.analytical
    ensures Choose(Tenths(gptKey, true, ind)).model == Gpt
  {
    StrictBestChosen(Tenths(gptKey, true, ind), 3);
  }

  /** One of the five words that bring gpt in occurs in the lower-cased
      prompt; they are the first five audio terms, so the prompt is then
      audio related as well. */
  function BringsGpt(prompt: string): (r: bool)
    ensures r <==> PyStr.AnyIn(PyStr.Lower(prompt), AudioWords)
    ensures r ==> IsAudioRelated(prompt)
  {
    if PyStr.AnyIn(PyStr.Lower(prompt), AudioWords) then
      var i :| 0 <= i < |AudioWords| && PyStr.Contains(PyStr.Lower(prompt), AudioWords[i]);
      assert AudioTerms[i] == AudioWords[i];
      assert PyStr.AnyIn(PyStr.Lower(prompt), AudioTerms);
      true
    else
      false
  }
}
