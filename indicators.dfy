/** Word-set indicators of a prompt: for each category, the share of the
    category's words that appear as whitespace tokens of the lower-cased,
    stripped prompt, and a complexity score from sentence length and
    vocabulary variety. */
module Indicators {
  import opened Wrappers
  import PyStr
  import Py

  const TechnicalWords: set<string> := {
    "código", "programa", "sistema", "tecnologia", "software",
    "hardware", "dados", "análise", "algoritmo", "computador",
    "desenvolvimento", "programação", "api", "banco de dados",
    "interface", "rede", "servidor", "aplicação", "framework"
  }

  const AnalyticalWords: set<string> := {
    "analise", "compare", "explique", "porque", "como",
    "qual", "quais", "onde", "quando", "avalie",
    "considere", "examine", "investigue", "explore"
  }

  const FactualWords: set<string> := {
    "fato", "verdade", "história", "evento", "data",
    "local", "pessoa", "número", "estatística", "informação",
    "definição", "exemplo", "caso", "situação"
  }

  const CreativeWords: set<string> := {
    "crie", "imagine", "desenvolva", "invente", "sugira",
    "proponha", "elabore", "desenhe", "planeje", "componha",
    "ideias", "criativo", "inovador", "original"
  }

  const ConversationalWords: set<string> := {
    "oi", "olá", "tudo bem", "como vai", "obrigado",
    "por favor", "tchau", "até logo", "bom dia", "boa tarde",
    "boa noite", "legal", "bacana", "beleza"
  }

  /** The six indicators, each a score between 0 and 1. */
  datatype Scores = Scores(
    complexity: real,
    technical: real,
    conversational: real,
    analytical: real,
    factual: real,
    creative: real)

  /** `set(words)`. */
  function WordSet(words: seq<string>): set<string> {
    set w | w in words
  }

  /** A set never has more members than the list it was made from. */
  lemma {:induction false} WordSetSize(words: seq<string>)
    ensures |WordSet(words)| <= |words|
    ensures |words| > 0 ==> |WordSet(words)| > 0
    decreases |words|
  {
    if |words| > 0 {
      WordSetSize(words[1..]);
      assert WordSet(words) == WordSet(words[1..]) + {words[0]};
      assert words[0] in WordSet(words);
    }
  }

  /** `len(words & category) / len(category)`. */
  function Share(words: set<string>, category: set<string>): (r: real)
    requires |category| > 0
    ensures 0.0 <= r <= 1.0
    ensures r == 0.0 <==> words !! category
    ensures r == 1.0 <==> category <= words
  {
    CommonSize(words, category);
    (|words * category| as real) / (|category| as real)
  }

  lemma CommonSize(words: set<string>, category: set<string>)
    ensures |words * category| <= |category|
    ensures |words * category| == 0 <==> words !! category
    ensures |words * category| == |category| <==> category <= words
  {
    var common := words * category;
    SubsetSize(common, category);
    if category <= words {
      assert common == category;
    } else {
      assert common < category;
      ProperSubsetSize(common, category);
    }
    if common != {} {
      var x :| x in common;
      assert x in words && x in category;
    } else {
      forall x | x in words ensures x !in category {
        assert x !in common;
      }
    }
  }

  lemma SubsetSize<T>(a: set<T>, b: set<T>)
    requires a <= b
    ensures |a| <= |b|
  {
    assert b == a + (b - a);
  }

  lemma ProperSubsetSize<T>(a: set<T>, b: set<T>)
    requires a < b
    ensures |a| < |b|
  {
    assert b - a != {};
    assert b == a + (b - a);
  }

  /** `sum(len(s.split()) for s in parts)`. */
  function WordTotal(parts: seq<string>): nat
    decreases |parts|
  {
    if |parts| == 0 then 0 else |PyStr.Words(parts[0])| + WordTotal(parts[1..])
  }

  /** A product of non-negative reals is non-negative. */
  lemma NonNegativeProduct(a: real, b: real)
    requires a >= 0.0 && b >= 0.0
    ensures a * b >= 0.0
  {
  }

  /** `min(x, 1.0)`. */
  function AtMostOne(x: real): real {
    if x < 1.0 then x else 1.0
  }

  /** `sum(len(s.split()) for s in sentences) / len(sentences)` over the
      pieces of `t.split(".")`, of which there is always at least one. */
  function AverageSentenceLength(t: string): (avg: real)
    ensures avg >= 0.0
  {
    var sentences := PyStr.SplitOn(t, '.');
    WordTotal(sentences) as real / |sentences| as real
  }

  /** `len(set(words)) / len(words)`: the share of distinct words, in (0, 1]. */
  function UniqueRatio(words: seq<string>): (ratio: real)
    requires |words| > 0
    ensures 0.0 < ratio <= 1.0
  {
    WordSetSize(words);
    |WordSet(words)| as real / |words| as real
  }

  /** `min((avg_sentence_length / 20) * unique_words_ratio, 1.0)`. */
  function Weighted(avg: real, ratio: real): (c: real)
    requires avg >= 0.0 && 0.0 < ratio <= 1.0
    ensures 0.0 <= c <= 1.0
    ensures avg < 20.0 ==> c < 1.0
  {
    NonNegativeProduct(avg / 20.0, ratio);
    AtMostOne((avg / 20.0) * ratio)
  }

  /** The complexity score: the average sentence length over 20, weighted
      by the share of distinct words and capped at 1, or the
      `ZeroDivisionError` of the distinct-word ratio when `t` has no word. */
  function ComplexityScore(t: string): (r: Result<real, Py.PyError>)
    ensures r.Failure? <==> forall i :: 0 <= i < |t| ==> PyStr.IsSpace(t[i])
    ensures r.Failure? ==> r.error.ZeroDivisionError?
    ensures r.Success? ==>
      && |PyStr.Words(t)| > 0
      && r.value == Weighted(AverageSentenceLength(t), UniqueRatio(PyStr.Words(t)))
    ensures r.Success? ==> 0.0 <= r.value <= 1.0
  {
    PyStr.WordsEmpty(t);
    if |PyStr.Words(t)| == 0 then Failure(Py.ZeroDivisionError("division by zero"))
    else
      Success(Weighted(AverageSentenceLength(t), UniqueRatio(PyStr.Words(t))))
  }

  /** `get_indicators`: the five category shares of the words of the
      lower-cased, stripped prompt and its complexity score, or the
      `ZeroDivisionError` raised when the prompt has no word. */
  function GetIndicators(text: string): (r: Result<Scores, Py.PyError>)
    ensures var t := PyStr.Strip(PyStr.Lower(text));
      r.Failure? <==> forall i :: 0 <= i < |t| ==> PyStr.IsSpace(t[i])
    ensures r.Failure? ==> r.error.ZeroDivisionError?
    ensures r.Success? ==> var t := PyStr.Strip(PyStr.Lower(text));
      var present := WordSet(PyStr.Words(t)); var s := r.value;
      && ComplexityScore(t) == Success(s.complexity)
      && s.technical == Share(present, TechnicalWords)
      && s.conversational == Share(present, ConversationalWords)
      && s.analytical == Share(present, AnalyticalWords)
      && s.factual == Share(present, FactualWords)
      && s.creative == Share(present, CreativeWords)
    ensures r.Success? ==> var s := r.value;
      && 0.0 <= s.technical <= 1.0 && 0.0 <= s.analytical <= 1.0 && 0.0 <= s.factual <= 1.0
      && 0.0 <= s.creative <= 1.0 && 0.0 <= s.conversational <= 1.0
      && 0.0 <= s.complexity <= 1.0
  {
    var t := PyStr.Strip(PyStr.Lower(text));
    var present := WordSet(PyStr.Words(t));
    var complexity := ComplexityScore(t);
    if complexity.Failure? then Failure(complexity.error)
    else
      Success(Scores(complexity.value,
                     Share(present, TechnicalWords), Share(present, ConversationalWords),
                     Share(present, AnalyticalWords), Share(present, FactualWords),
                     Share(present, CreativeWords)))
  }

  /** The technical and conversational indicators never reach 1: their
      multi-word entries are never among the tokens. */
  lemma {:induction false} SomeSharesStayBelowOne(text: string)
    requires GetIndicators(text).Success?
    ensures GetIndicators(text).value.technical < 1.0
    ensures GetIndicators(text).value.conversational < 1.0
  {
    var t := PyStr.Strip(PyStr.Lower(text));
    var s := GetIndicators(text).value;
    assert s.technical == Share(WordSet(PyStr.Words(t)), TechnicalWords);
    assert s.conversational == Share(WordSet(PyStr.Words(t)), ConversationalWords);
    MultiWordEntries();
    MultiWordShareBelowOne(t, TechnicalWords, "banco de dados", 5);
    MultiWordShareBelowOne(t, ConversationalWords, "tudo bem", 4);
  }

  lemma MultiWordEntries()
    ensures "banco de dados" in TechnicalWords && PyStr.IsSpace("banco de dados"[5])
    ensures "tudo bem" in ConversationalWords && PyStr.IsSpace("tudo bem"[4])
  {
  }

  /** A category holding an entry with whitespace inside never has a share of 1. */
  lemma MultiWordShareBelowOne(t: string, category: set<string>, entry: string, gap: nat)
    requires entry in category && gap < |entry| && PyStr.IsSpace(entry[gap])
    ensures Share(WordSet(PyStr.Words(t)), category) < 1.0
  {
    MultiWordEntryNeverMatches(t, entry, gap);
  }

  /** Every token of `s.split()` is free of whitespace, so a category entry
      with a space inside (such as "banco de dados") is never among them. */
  lemma MultiWordEntryNeverMatches(text: string, entry: string, gap: nat)
    requires gap < |entry| && PyStr.IsSpace(entry[gap])
    ensures entry !in WordSet(PyStr.Words(text))
  {
    assert !PyStr.IsWord(entry);
  }

  /** The category shares count only single-word entries. */
  lemma SharesIgnoreMultiWordEntries(text: string)
    ensures var present := WordSet(PyStr.Words(text));
      && present * TechnicalWords == present * (TechnicalWords - {"banco de dados"})
      && present * ConversationalWords == present * (ConversationalWords -
           {"tudo bem", "como vai", "por favor", "até logo", "bom dia", "boa tarde", "boa noite"})
  {
    MultiWordEntryNeverMatches(text, "banco de dados", 5);
    MultiWordEntryNeverMatches(text, "tudo bem", 4);
    MultiWordEntryNeverMatches(text, "como vai", 4);
    MultiWordEntryNeverMatches(text, "por favor", 3);
    MultiWordEntryNeverMatches(text, "até logo", 3);
    MultiWordEntryNeverMatches(text, "bom dia", 3);
    MultiWordEntryNeverMatches(text, "boa tarde", 3);
    MultiWordEntryNeverMatches(text, "boa noite", 3);
  }
}
