/** The keyword-driven classifier that scores the four backends (gpt,
    deepseek, mistral, gemini) for a prompt and recommends one of them. */
module ClassifierAgent {
  import PyStr
  import Ranking
  import opened Backends

  /** Phrases that mark a prompt as highly complex. */
  const HighComplexityIndicators: seq<string> := [
    "analise", "implicações", "impacto",
    "discuta", "considere", "avalie",
    "próximos anos", "futuro", "longo prazo",
    "aspectos técnicos", "aspectos práticos"
  ]

  /** The task types, in the insertion order of the keyword table. */
  datatype TaskType = Technical | Analysis | Creative | Factual | Complex {
    function Name(): string {
      match this
      case Technical => "technical"
      case Analysis => "analysis"
      case Creative => "creative"
      case Factual => "factual"
      case Complex => "complex"
    }
  }

  const TaskTypes: seq<TaskType> := [Technical, Analysis, Creative, Factual, Complex]

  /** The position of a task type in `TaskTypes`. */
  function TaskIndex(k: TaskType): (i: nat)
    ensures i < |TaskTypes| && TaskTypes[i] == k
  {
    match k
    case Technical => 0
    case Analysis => 1
    case Creative => 2
    case Factual => 3
    case Complex => 4
  }

  /** `TaskTypes` lists every task type exactly once. */
  lemma TaskIndexOf(i: nat)
    requires i < |TaskTypes|
    ensures TaskIndex(TaskTypes[i]) == i
  {
    assert i == 0 || i == 1 || i == 2 || i == 3 || i == 4;
  }

  /** The keyword table: the keywords of each task type. */
  function Keywords(k: TaskType): seq<string> {
    match k
    case Technical => [
      "código", "programação", "algoritmo", "função", "classe",
      "variável", "loop", "recursão", "debug", "erro",
      "sintaxe", "compilação", "execução", "performance",
      "computação", "sistema", "protocolo", "implementação",
      "arquitetura", "tecnologia", "segurança", "criptografia" ]
    case Analysis => [
      "analise", "compare", "avalie", "investigue",
      "examine", "discuta", "explore", "pesquise",
      "implicações", "impacto", "consequências" ]
    case Creative => [
      "crie", "desenvolva", "invente", "imagine",
      "sugira", "proponha", "desenhe", "escreva" ]
    case Factual => [
      "quando", "onde", "quem", "o que",
      "qual", "quantos", "quanto", "como" ]
    case Complex => [
      "implicações", "consequências", "impacto",
      "teoria", "filosofia", "conceito", "paradigma",
      "metodologia", "framework", "arquitetura",
      "futuro", "próximos anos", "longo prazo",
      "análise profunda", "considerando aspectos" ]
  }

  const ComplexIndicators: seq<string> := [
    "analise", "impacto", "implicações", "discuta",
    "consequências", "compare", "avalie", "teoria",
    "metodologia", "framework", "arquitetura", "explique detalhadamente",
    "desenvolva", "elabore", "investigue", "explore"
  ]

  const TechnicalIndicators: seq<string> := [
    "código", "programação", "algoritmo", "função", "classe",
    "debug", "erro", "performance", "computação", "sistema",
    "protocolo", "implementação", "arquitetura", "tecnologia",
    "segurança", "criptografia", "desenvolvimento", "api",
    "banco de dados", "otimização"
  ]

  const CreativeIndicators: seq<string> := [
    "crie", "imagine", "sugira", "invente", "desenvolva",
    "história", "criativo", "inovador", "original", "ideia",
    "conceito", "design", "arte", "música", "poesia"
  ]

  const PracticalIndicators: seq<string> := [
    "como fazer", "passo a passo", "exemplo", "explique",
    "mostre", "demonstre", "prático", "simples", "básico",
    "rápido", "fácil", "direto", "resumo", "síntese"
  ]

  /** The backends, in the insertion order of the score dictionary. */
  const Models: seq<Model> := [Gpt, Deepseek, Mistral, Gemini]

  /** The position of a backend in `Models`. */
  function ModelIndex(m: Model): (i: nat)
    ensures i < |Models| && Models[i] == m
  {
    match m
    case Gpt => 0
    case Deepseek => 1
    case Mistral => 2
    case Gemini => 3
  }

  /** `Models` lists every backend exactly once. */
  lemma ModelIndexOf(i: nat)
    requires i < |Models|
    ensures ModelIndex(Models[i]) == i
  {
    assert i == 0 || i == 1 || i == 2 || i == 3;
  }

  datatype Complexity = High | Medium | Low {
    function Name(): string {
      match this
      case High => "high"
      case Medium => "medium"
      case Low => "low"
    }
  }

  /** A standalone "e" token or a comma: the prompt asks about several aspects. */
  predicate MultipleAspects(t: string) {
    "e" in PyStr.Words(t) || PyStr.Contains(t, ",")
  }

  /** `analyze_complexity`: two indicators, or one with several aspects, is
      high; one of either is medium; neither is low. */
  function AnalyzeComplexity(text: string): (c: Complexity)
    ensures var t := PyStr.Lower(text);
      var found := PyStr.CountIn(t, HighComplexityIndicators);
      && (c == High <==> found >= 2 || (found >= 1 && MultipleAspects(t)))
      && (c == Low <==> !PyStr.AnyIn(t, HighComplexityIndicators) && !MultipleAspects(t))
  {
    var t := PyStr.Lower(text);
    var count := PyStr.CountIn(t, HighComplexityIndicators);
    var multi := MultipleAspects(t);
    if count >= 2 || (count >= 1 && multi) then High
    else if count >= 1 || multi then Medium
    else Low
  }

  /** The weighted task scores of `identify_task_type`: 3 per keyword that
      occurs, and half as much again for "analysis" and "complex". */
  function TaskScores(t: string): (s: seq<real>)
    ensures |s| == |TaskTypes|
    ensures forall i :: 0 <= i < |s| ==> (s[i] > 0.0 <==> PyStr.AnyIn(t, Keywords(TaskTypes[i])))
  {
    seq(|TaskTypes|, i requires 0 <= i < |TaskTypes| =>
      var score := 3.0 * TaskCount(t, TaskTypes[i]) as real;
      if TaskTypes[i] in {Complex, Analysis} then score * 1.5 else score)
  }

  /** The positions of `r` whose key is positive, in their order in `r`. */
  function KeepPositive(keys: seq<real>, r: seq<nat>): (f: seq<nat>)
    requires Ranking.InRange(keys, r)
    ensures Ranking.InRange(keys, f)
    ensures forall x :: x in f <==> x in r && x < |keys| && keys[x] > 0.0
    decreases |r|
  {
    if |r| == 0 then []
    else if keys[r[0]] > 0.0 then [r[0]] + KeepPositive(keys, r[1..])
    else KeepPositive(keys, r[1..])
  }

  /** Dropping positions from a ranked list leaves it ranked. */
  lemma {:induction false} KeepPositiveRanked(keys: seq<real>, r: seq<nat>)
    requires Ranking.Ranked(keys, r)
    ensures Ranking.Ranked(keys, KeepPositive(keys, r))
    decreases |r|
  {
    if |r| > 0 {
      var tail := r[1..];
      assert Ranking.Ranked(keys, tail) by {
        forall a, b | 0 <= a < b < |tail| ensures Ranking.Precedes(keys, tail[a], tail[b]) {
          assert tail[a] == r[a + 1] && tail[b] == r[b + 1];
        }
      }
      KeepPositiveRanked(keys, tail);
      if keys[r[0]] > 0.0 {
        var rest := KeepPositive(keys, tail);
        var f := [r[0]] + rest;
        forall x | x in rest ensures Ranking.Precedes(keys, r[0], x) {
          var b :| 0 <= b < |tail| && tail[b] == x;
          assert r[b + 1] == x;
        }
        forall a, b | 0 <= a < b < |f| ensures Ranking.Precedes(keys, f[a], f[b]) {
          if a == 0 {
            assert f[b] in rest;
          } else {
            assert f[a] == rest[a - 1] && f[b] == rest[b - 1];
          }
        }
      }
    }
  }

  /** Positions of the task types `identify_task_type` reports: those with a
      positive score, by descending score, ties in table order. */
  function TaskOrder(t: string): (ps: seq<nat>)
    ensures Ranking.Ranked(TaskScores(t), ps)
    ensures forall i: nat :: i in ps <==> i < |TaskTypes| && PyStr.AnyIn(t, Keywords(TaskTypes[i]))
  {
    var scores := TaskScores(t);
    KeepPositiveRanked(scores, Ranking.Rank(scores));
    KeepPositive(scores, Ranking.Rank(scores))
  }

  /** `identify_task_type`: exactly the task types with some keyword
      present, in the order `TaskOrder` gives their positions. */
  function IdentifyTaskType(text: string): (r: seq<TaskType>)
    ensures var ps := TaskOrder(PyStr.Lower(text));
      |r| == |ps| && forall a :: 0 <= a < |r| ==> ps[a] < |TaskTypes| && r[a] == TaskTypes[ps[a]]
    ensures forall i :: 0 <= i < |TaskTypes| ==>
      (TaskTypes[i] in r <==> PyStr.AnyIn(PyStr.Lower(text), Keywords(TaskTypes[i])))
  {
    var ps := TaskOrder(PyStr.Lower(text));
    var r := seq(|ps|, a requires 0 <= a < |ps| => TaskTypes[ps[a]]);
    forall i | 0 <= i < |TaskTypes| ensures TaskTypes[i] in r <==> i in ps {
      TypeListed(ps, r, i);
    }
    r
  }

  /** A task type is in the list of the types at given positions exactly
      when its own position is among them. */
  lemma {:induction false} TypeListed(ps: seq<nat>, r: seq<TaskType>, i: nat)
    requires |r| == |ps| && forall a :: 0 <= a < |ps| ==> ps[a] < |TaskTypes| && r[a] == TaskTypes[ps[a]]
    requires i < |TaskTypes|
    ensures TaskTypes[i] in r <==> i in ps
  {
    if TaskTypes[i] in r {
      var a :| 0 <= a < |r| && r[a] == TaskTypes[i];
      TaskIndexOf(i);
      TaskIndexOf(ps[a]);
    }
    if i in ps {
      var a :| 0 <= a < |ps| && ps[a] == i;
      assert r[a] == TaskTypes[i];
    }
  }

  /** How many keywords of task type `k` occur in `t`. */
  function TaskCount(t: string, k: TaskType): (n: nat)
    ensures n > 0 <==> PyStr.AnyIn(t, Keywords(k))
  {
    PyStr.CountIn(t, Keywords(k))
  }

  /** The per-task keyword counts `classify_prompt` reports. */
  function TaskCounts(t: string): (s: seq<real>)
    ensures |s| == |TaskTypes|
    ensures forall i :: 0 <= i < |s| ==> s[i] >= 0.0 && (s[i] > 0.0 <==> PyStr.AnyIn(t, Keywords(TaskTypes[i])))
  {
    seq(|TaskTypes|, i requires 0 <= i < |TaskTypes| => TaskCount(t, TaskTypes[i]) as real)
  }

  /** The "task_type" of `classify_prompt`: a task type, or "general". */
  datatype TaskLabel = General | Task(task: TaskType) {
    function Name(): string {
      match this
      case General => "general"
      case Task(k) => k.Name()
    }
  }

  /** "general" when no task keyword occurs, otherwise the first task type,
      in table order, with the most keywords present. */
  function MainTask(t: string): (l: TaskLabel)
    ensures l == General <==> forall i :: 0 <= i < |TaskTypes| ==> !PyStr.AnyIn(t, Keywords(TaskTypes[i]))
    ensures l.Task? ==> var k := TaskIndex(l.task);
      && (forall j :: 0 <= j < |TaskTypes| ==> TaskCount(t, TaskTypes[j]) <= TaskCount(t, l.task))
      && (forall j :: 0 <= j < k ==> TaskCount(t, TaskTypes[j]) < TaskCount(t, l.task))
  {
    var counts := TaskCounts(t);
    if exists i :: 0 <= i < |TaskTypes| && counts[i] > 0.0 then
      var k := Ranking.ArgMax(counts);
      BestTask(t, k);
      Task(TaskTypes[k])
    else
      assert forall i :: 0 <= i < |TaskTypes| ==> !PyStr.AnyIn(t, Keywords(TaskTypes[i]));
      General
  }

  /** The position of the largest count is the first task type with the
      most keywords present. */
  lemma {:induction false} BestTask(t: string, k: nat)
    requires k == Ranking.ArgMax(TaskCounts(t))
    ensures k < |TaskTypes| && TaskIndex(TaskTypes[k]) == k
    ensures forall j :: 0 <= j < |TaskTypes| ==> TaskCount(t, TaskTypes[j]) <= TaskCount(t, TaskTypes[k])
    ensures forall j :: 0 <= j < k ==> TaskCount(t, TaskTypes[j]) < TaskCount(t, TaskTypes[k])
  {
    var counts := TaskCounts(t);
    TaskIndexOf(k);
    assert forall j :: 0 <= j < |TaskTypes| ==> counts[j] == TaskCount(t, TaskTypes[j]) as real;
  }

  /** `min(max(x, 0.3), 0.9)`. */
  function Clamp(x: real): (y: real)
    ensures 0.3 <= y <= 0.9
    ensures 0.3 <= x <= 0.9 ==> y == x
  {
    if x < 0.3 then 0.3 else if x > 0.9 then 0.9 else x
  }

  /** The confidence of `classify_prompt`: the gap between the two best
      scores relative to the best, clamped to [0.3, 0.9]. */
  function Confidence(scores: seq<real>): (c: real)
    requires |scores| >= 2
    ensures 0.3 <= c <= 0.9
  {
    var r := Ranking.Rank(scores);
    var top := scores[r[0]];
    var second := scores[r[1]];
    Clamp((top - second) / (if top > 1.0 then top else 1.0))
  }

  /** A tie for the best score gives the lowest confidence. */
  lemma {:induction false} ConfidenceTie(scores: seq<real>, i: nat, j: nat)
    requires |scores| >= 2 && i < j < |scores|
    requires forall k :: 0 <= k < |scores| ==> scores[k] <= scores[i]
    requires scores[j] == scores[i]
    ensures Confidence(scores) == 0.3
  {
    var r := Ranking.Rank(scores);
    Ranking.RankedHead(scores, r, i);
    var x := if r[0] == i then j else i;
    assert x in r[1..] by {
      assert x in r;
      var a :| 0 <= a < |r| && r[a] == x;
      assert a != 0 && r[1..][a - 1] == x;
    }
    Ranking.RankedTail(scores, r);
    Ranking.RankedHead(scores, r[1..], x);
  }

  /** A sole best score at `i`, with the best of the rest at `j`, gives the
      clamped gap between the two relative to the best. */
  lemma {:induction false} ConfidenceGap(scores: seq<real>, i: nat, j: nat)
    requires |scores| >= 2 && i < |scores| && j < |scores| && i != j
    requires forall k :: 0 <= k < |scores| && k != i ==> scores[k] <= scores[j] < scores[i]
    ensures Confidence(scores) == Clamp((scores[i] - scores[j]) / (if scores[i] > 1.0 then scores[i] else 1.0))
  {
    var r := Ranking.Rank(scores);
    Ranking.RankedHead(scores, r, i);
    assert j in r[1..] by {
      assert j in r;
      var b :| 0 <= b < |r| && r[b] == j;
      assert b != 0 && r[1..][b - 1] == j;
    }
    Ranking.RankedTail(scores, r);
    Ranking.RankedHead(scores, r[1..], j);
  }

  /** Everything `classify_prompt` returns: "model", "task_type" ("general"
      when no task keyword occurs), "confidence", and the "metadata" fields. */
  datatype Classification = Classification(
    model: Model,
    taskType: TaskLabel,
    confidence: real,
    complexity: Complexity,
    taskScores: seq<real>,
    modelScores: seq<int>,
    complexFound: nat,
    technicalFound: nat,
    creativeFound: nat,
    practicalFound: nat)

  function AsReals(s: seq<int>): (r: seq<real>)
    ensures |r| == |s| && forall i :: 0 <= i < |s| ==> r[i] == s[i] as real
  {
    seq(|s|, i requires 0 <= i < |s| => s[i] as real)
  }

  /** Four points, one per backend in the order of `Models`. */
  datatype Points = Points(gpt: int, deepseek: int, mistral: int, gemini: int) {
    /** The points in the order of `Models`. */
    function AsSeq(): seq<int> {
      [gpt, deepseek, mistral, gemini]
    }

    function At(m: Model): int {
      match m
      case Gpt => gpt
      case Deepseek => deepseek
      case Mistral => mistral
      case Gemini => gemini
    }
  }

  /** The points each complexity tier gives. */
  function TierPoints(c: Complexity): Points {
    match c
    case High => Points(4, 3, 0, 2)
    case Medium => Points(0, 2, 2, 3)
    case Low => Points(1, 0, 3, 2)
  }

  /** The bonus of the complex indicators (two per phrase found). */
  function ComplexBonus(score: nat): Points {
    if score >= 4 then Points(4, 3, 0, 0) else if score >= 2 then Points(2, 3, 0, 1) else Points(0, 0, 0, 0)
  }

  /** The bonus of the technical indicators. */
  function TechnicalBonus(score: nat): Points {
    if score >= 6 then Points(3, 4, 0, 0) else if score >= 3 then Points(2, 3, 0, 1) else Points(0, 0, 0, 0)
  }

  /** The bonus of the creative indicators. */
  function CreativeBonus(score: nat): Points {
    if score >= 4 then Points(0, 0, 4, 3) else if score >= 2 then Points(0, 0, 3, 2) else Points(0, 0, 0, 0)
  }

  /** The bonus of the practical indicators. */
  function PracticalBonus(score: nat): Points {
    if score >= 4 then Points(0, 0, 3, 3) else if score >= 2 then Points(1, 0, 2, 2) else Points(0, 0, 0, 0)
  }

  /** The points backend `m` gets: those of the tier plus the bonus of
      each indicator family. */
  function PointsOf(m: Model, complexity: Complexity, complexScore: nat, technicalScore: nat,
                    creativeScore: nat, practicalScore: nat): int
  {
    TierPoints(complexity).At(m) + ComplexBonus(complexScore).At(m) + TechnicalBonus(technicalScore).At(m)
      + CreativeBonus(creativeScore).At(m) + PracticalBonus(practicalScore).At(m)
  }

  /** The model scores of `classify_prompt`, in the order of `Models`. No
      score is negative, and the tier alone gives some backend 3 points. */
  function ModelPoints(complexity: Complexity, complexScore: nat, technicalScore: nat,
                       creativeScore: nat, practicalScore: nat): (s: seq<int>)
    ensures |s| == |Models|
    ensures forall i :: 0 <= i < |s| ==> s[i] >= 0
    ensures exists i :: 0 <= i < |s| && s[i] >= 3
  {
    var gpt := PointsOf(Gpt, complexity, complexScore, technicalScore, creativeScore, practicalScore);
    var deepseek := PointsOf(Deepseek, complexity, complexScore, technicalScore, creativeScore, practicalScore);
    var mistral := PointsOf(Mistral, complexity, complexScore, technicalScore, creativeScore, practicalScore);
    var gemini := PointsOf(Gemini, complexity, complexScore, technicalScore, creativeScore, practicalScore);
    var s := [gpt, deepseek, mistral, gemini];
    assert s[0] >= 3 || s[2] >= 3 || s[3] >= 3;
    s
  }

  /** The score table of `classify_prompt`, built by adding the points of
      the tier and of each indicator family whose count (two per phrase)
      passes its thresholds. */
  method ScoreModels(complexity: Complexity, complexScore: nat, technicalScore: nat,
                     creativeScore: nat, practicalScore: nat) returns (scores: seq<int>)
    ensures scores == ModelPoints(complexity, complexScore, technicalScore, creativeScore, practicalScore)
  {
    var gpt, deepseek, mistral, gemini := 0, 0, 0, 0;

    if complexity == High {
      gpt := gpt + 4;
      deepseek := deepseek + 3;
      gemini := gemini + 2;
    } else if complexity == Medium {
      gemini := gemini + 3;
      deepseek := deepseek + 2;
      mistral := mistral + 2;
    } else {
      mistral := mistral + 3;
      gemini := gemini + 2;
      gpt := gpt + 1;
    }

    if complexScore >= 4 {
      gpt := gpt + 4;
      deepseek := deepseek + 3;
    } else if complexScore >= 2 {
      deepseek := deepseek + 3;
      gpt := gpt + 2;
      gemini := gemini + 1;
    }

    if technicalScore >= 6 {
      deepseek := deepseek + 4;
      gpt := gpt + 3;
    } else if technicalScore >= 3 {
      deepseek := deepseek + 3;
      gpt := gpt + 2;
      gemini := gemini + 1;
    }

    if creativeScore >= 4 {
      mistral := mistral + 4;
      gemini := gemini + 3;
    } else if creativeScore >= 2 {
      mistral := mistral + 3;
      gemini := gemini + 2;
    }

    if practicalScore >= 4 {
      mistral := mistral + 3;
      gemini := gemini + 3;
    } else if practicalScore >= 2 {
      mistral := mistral + 2;
      gemini := gemini + 2;
      gpt := gpt + 1;
    }

    assert gpt == PointsOf(Gpt, complexity, complexScore, technicalScore, creativeScore, practicalScore);
    assert deepseek == PointsOf(Deepseek, complexity, complexScore, technicalScore, creativeScore, practicalScore);
    assert mistral == PointsOf(Mistral, complexity, complexScore, technicalScore, creativeScore, practicalScore);
    assert gemini == PointsOf(Gemini, complexity, complexScore, technicalScore, creativeScore, practicalScore);
    scores := [gpt, deepseek, mistral, gemini];
  }

  /** `max(model_scores.items(), key=...)`: a backend with the best score,
      the first in `Models` order among equals. */
  function Recommended(scores: seq<int>): (m: Model)
    requires |scores| == |Models|
    ensures var k := ModelIndex(m);
      && (forall j :: 0 <= j < |Models| ==> scores[j] <= scores[k])
      && (forall j :: 0 <= j < k ==> scores[j] < scores[k])
  {
    var k := Ranking.ArgMax(AsReals(scores));
    ModelIndexOf(k);
    Models[k]
  }

  /** What `classify_prompt` reads off the lower-cased text `t`: its
      complexity, twice the number of keywords found in each of the four
      indicator lists, the task counts and the main task. */
  predicate ReadsText(res: Classification, t: string) {
    && res.complexity == AnalyzeComplexity(t)
    && res.complexFound == 2 * PyStr.CountIn(t, ComplexIndicators)
    && res.technicalFound == 2 * PyStr.CountIn(t, TechnicalIndicators)
    && res.creativeFound == 2 * PyStr.CountIn(t, CreativeIndicators)
    && res.practicalFound == 2 * PyStr.CountIn(t, PracticalIndicators)
    && res.taskScores == TaskCounts(t)
    && res.taskType == MainTask(t)
  }

  /** What `classify_prompt` promises of its choice: a score per backend,
      none negative and one at least 3, the points of the tier and of the
      indicator families, the first backend with the best score, and a
      confidence between 0.3 and 0.9. */
  predicate ChoosesModel(res: Classification) {
    && res.modelScores == ModelPoints(res.complexity, res.complexFound, res.technicalFound,
                                      res.creativeFound, res.practicalFound)
    && |res.modelScores| == |Models|
    && (forall i :: 0 <= i < |Models| ==> res.modelScores[i] >= 0)
    && (exists i :: 0 <= i < |Models| && res.modelScores[i] >= 3)
    && res.model == Recommended(res.modelScores)
    && res.confidence == Confidence(AsReals(res.modelScores))
    && 0.3 <= res.confidence <= 0.9
  }

  /** `classify_prompt`: complexity, task counts and type, model scores, the
      first best-scoring backend and the confidence. */
  method ClassifyPrompt(text: string) returns (res: Classification)
    ensures ReadsText(res, PyStr.Lower(text))
    ensures ChoosesModel(res)
  {
    var t := PyStr.Lower(text);
    var complexity := AnalyzeComplexity(t);
    var complexScore := 2 * PyStr.CountIn(t, ComplexIndicators);
    var technicalScore := 2 * PyStr.CountIn(t, TechnicalIndicators);
    var creativeScore := 2 * PyStr.CountIn(t, CreativeIndicators);
    var practicalScore := 2 * PyStr.CountIn(t, PracticalIndicators);
    res := Classify(complexity, TaskCounts(t), MainTask(t), complexScore, technicalScore, creativeScore, practicalScore);
  }

  /** The model scores of the complexity and the indicator scores, and the
      choice made from them. */
  method Classify(complexity: Complexity, taskScores: seq<real>, taskType: TaskLabel,
                  complexScore: nat, technicalScore: nat, creativeScore: nat, practicalScore: nat)
    returns (res: Classification)
    ensures res.complexity == complexity && res.taskScores == taskScores && res.taskType == taskType
    ensures res.complexFound == complexScore && res.technicalFound == technicalScore
    ensures res.creativeFound == creativeScore && res.practicalFound == practicalScore
    ensures ChoosesModel(res)
  {
    var modelScores := ScoreModels(complexity, complexScore, technicalScore, creativeScore, practicalScore);
    var confidence := Confidence(AsReals(modelScores));
    res := Classification(Recommended(modelScores), taskType, confidence, complexity, taskScores, modelScores,
                          complexScore, technicalScore, creativeScore, practicalScore);
  }

  /** Below every family threshold, the tier alone decides: high goes to
      gpt with confidence 0.3 (a gap of 1 over 4, raised to the floor). */
  lemma {:induction false} HighTierGoesToGpt(complexScore: nat, technicalScore: nat,
                                             creativeScore: nat, practicalScore: nat)
    requires complexScore < 2 && technicalScore < 3 && creativeScore < 2 && practicalScore < 2
    ensures var s := ModelPoints(High, complexScore, technicalScore, creativeScore, practicalScore);
      s == [4, 3, 0, 2] && Recommended(s) == Gpt && Confidence(AsReals(s)) == 0.3
  {
    var s := ModelPoints(High, complexScore, technicalScore, creativeScore, practicalScore);
    assert s == TierPoints(High).AsSeq() by {
      assert ComplexBonus(complexScore) == TechnicalBonus(technicalScore) == Points(0, 0, 0, 0);
      assert CreativeBonus(creativeScore) == PracticalBonus(practicalScore) == Points(0, 0, 0, 0);
    }
    TierScoresDecide(s, High);
  }

  /** Below every family threshold, medium goes to gemini with a gap of 1
      over 3. */
  lemma {:induction false} MediumTierGoesToGemini(complexScore: nat, technicalScore: nat,
                                                  creativeScore: nat, practicalScore: nat)
    requires complexScore < 2 && technicalScore < 3 && creativeScore < 2 && practicalScore < 2
    ensures var s := ModelPoints(Medium, complexScore, technicalScore, creativeScore, practicalScore);
      s == [0, 2, 2, 3] && Recommended(s) == Gemini && Confidence(AsReals(s)) == 1.0 / 3.0
  {
    var s := ModelPoints(Medium, complexScore, technicalScore, creativeScore, practicalScore);
    assert s == TierPoints(Medium).AsSeq() by {
      assert ComplexBonus(complexScore) == TechnicalBonus(technicalScore) == Points(0, 0, 0, 0);
      assert CreativeBonus(creativeScore) == PracticalBonus(practicalScore) == Points(0, 0, 0, 0);
    }
    TierScoresDecide(s, Medium);
  }

  /** Below every family threshold, low goes to mistral with a gap of 1
      over 3. */
  lemma {:induction false} LowTierGoesToMistral(complexScore: nat, technicalScore: nat,
                                                creativeScore: nat, practicalScore: nat)
    requires complexScore < 2 && technicalScore < 3 && creativeScore < 2 && practicalScore < 2
    ensures var s := ModelPoints(Low, complexScore, technicalScore, creativeScore, practicalScore);
      s == [1, 0, 3, 2] && Recommended(s) == Mistral && Confidence(AsReals(s)) == 1.0 / 3.0
  {
    var s := ModelPoints(Low, complexScore, technicalScore, creativeScore, practicalScore);
    assert s == TierPoints(Low).AsSeq() by {
      assert ComplexBonus(complexScore) == TechnicalBonus(technicalScore) == Points(0, 0, 0, 0);
      assert CreativeBonus(creativeScore) == PracticalBonus(practicalScore) == Points(0, 0, 0, 0);
    }
    TierScoresDecide(s, Low);
  }

  /** A low-complexity prompt with three or more technical phrases and no
      other family bonus ties gpt and deepseek at 4; gpt wins by coming
      first, and the tie gives confidence 0.3. */
  lemma {:induction false} TechnicalTieGoesToGpt(technicalScore: nat)
    requires technicalScore >= 6
    ensures var s := ModelPoints(Low, 0, technicalScore, 0, 0);
      s == [4, 4, 3, 2] && Recommended(s) == Gpt && Confidence(AsReals(s)) == 0.3
  {
    var s := ModelPoints(Low, 0, technicalScore, 0, 0);
    assert s == [4, 4, 3, 2];
    ConfidenceTie(AsReals(s), 0, 1);
    RecommendedAt(s, 0);
  }

  /** With high complexity and the upper technical bonus, deepseek
      overtakes gpt when the complex family gives its lower bonus, and gpt
      keeps the lead when it gives its upper one. */
  lemma {:induction false} DeepseekOvertakes(technicalScore: nat)
    requires technicalScore >= 6
    ensures var s := ModelPoints(High, 2, technicalScore, 0, 0);
      s == [9, 10, 0, 3] && Recommended(s) == Deepseek
    ensures var s := ModelPoints(High, 4, technicalScore, 0, 0);
      s == [11, 10, 0, 2] && Recommended(s) == Gpt
  {
    var s := ModelPoints(High, 2, technicalScore, 0, 0);
    assert s == [9, 10, 0, 3];
    RecommendedAt(s, 1);
    var s' := ModelPoints(High, 4, technicalScore, 0, 0);
    assert s' == [11, 10, 0, 2];
    RecommendedAt(s', 0);
  }

  /** The choice made from the tier points alone. */
  lemma TierScoresDecide(s: seq<int>, c: Complexity)
    requires s == TierPoints(c).AsSeq()
    ensures Recommended(s) == (match c case High => Gpt case Medium => Gemini case Low => Mistral)
    ensures Confidence(AsReals(s)) == (if c == High then 0.3 else 1.0 / 3.0)
  {
    match c {
      case High => SoleBest(s, 0, 1);
      case Medium => SoleBest(s, 3, 1);
      case Low => SoleBest(s, 2, 3);
    }
  }

  /** A sole best score at `i`, with the best of the rest at `j`, makes
      backend `i` the recommended one, with the clamped gap between the two
      relative to the best as confidence. */
  lemma SoleBest(scores: seq<int>, i: nat, j: nat)
    requires |scores| == |Models| && i < |Models| && j < |Models| && i != j
    requires forall k :: 0 <= k < |Models| && k != i ==> scores[k] <= scores[j] < scores[i]
    ensures Recommended(scores) == Models[i]
    ensures Confidence(AsReals(scores)) ==
      Clamp((scores[i] - scores[j]) as real / (if scores[i] > 1 then scores[i] else 1) as real)
  {
    RecommendedAt(scores, i);
    ConfidenceGap(AsReals(scores), i, j);
  }

  /** The backend at the first position holding the best score is the one
      recommended. */
  lemma RecommendedAt(scores: seq<int>, k: nat)
    requires |scores| == |Models| && k < |Models|
    requires forall j :: 0 <= j < |Models| ==> scores[j] <= scores[k]
    requires forall j :: 0 <= j < k ==> scores[j] < scores[k]
    ensures Recommended(scores) == Models[k]
  {
    var m := Recommended(scores);
    var i := ModelIndex(m);
    ModelIndexOf(k);
    assert i == k;
  }

  /** Lower-casing twice is lower-casing once. */
  lemma LowerIdempotent(s: string)
    ensures PyStr.Lower(PyStr.Lower(s)) == PyStr.Lower(s)
  {
    forall i | 0 <= i < |s| ensures PyStr.LowerChar(PyStr.LowerChar(s[i])) == PyStr.LowerChar(s[i]) {
    }
  }

  /** `classify_prompt` lower-cases the prompt before `analyze_complexity`
      lower-cases it again; the tier is the one of the prompt itself. */
  lemma AnalyzeComplexityOfLowered(text: string)
    ensures AnalyzeComplexity(PyStr.Lower(text)) == AnalyzeComplexity(text)
  {
    LowerIdempotent(text);
  }
}
