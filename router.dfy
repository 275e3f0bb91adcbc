/** `LLMRouter.route_prompt`: pick a backend (the caller's choice or a
    classifier's), call it, and shape the reply, or the exception raised on
    the way, into the result record. The classifier and the backends are
    parameters. */
module Router {
  import opened Wrappers
  import opened Backends
  import Py
  import PyStr
  import ClassifierAgent
  import PromptClassifier

  /** What a backend call gives back: a string, some other object (kept as
      the text `str()` shows for it), or a raised exception. */
  datatype Reply =
    | Text(s: string)
    | Object(shown: string)
    | Raised(error: Py.PyError)

  /** The record `route_prompt` returns. */
  datatype RouteResult = RouteResult(
    text: string,
    model: Py.Json,
    success: bool,
    confidence: Py.Json,
    modelScores: Py.Json,
    indicators: Py.Json)

  /** A backend call: the backend and the prompt, to its reply. */
  type Call = (Model, string) -> Reply

  /** A classifier: the prompt, to its result dictionary or an exception. */
  type Classify = string -> Result<Py.Json, Py.PyError>

  const ErrorPrefix: string := "Erro ao processar prompt: "

  /** The indicators reported when no classifier ran: only `simple` set. */
  const PlainIndicators: Py.Json := Py.JDict([
    ("complex", Py.JBool(false)), ("technical", Py.JBool(false)),
    ("analytical", Py.JBool(false)), ("simple", Py.JBool(true))])

  /** The classification that stands in for the classifier when the caller names a model. */
  function GivenClassification(name: string): (c: Py.Json)
    ensures c.JDict?
    ensures Py.Lookup(c.fields, "confidence") == Some(Py.JNum(1.0))
    ensures Py.Lookup(c.fields, "model_scores") == Some(Py.JDict([(name, Py.JNum(1.0))]))
    ensures Py.Lookup(c.fields, "indicators") == Some(PlainIndicators)
  {
    var fs := [
      ("confidence", Py.JNum(1.0)),
      ("model_scores", Py.JDict([(name, Py.JNum(1.0))])),
      ("indicators", PlainIndicators)];
    Py.LookupFirst(fs, "confidence", 0);
    Py.LookupFirst(fs, "model_scores", 1);
    Py.LookupFirst(fs, "indicators", 2);
    Py.JDict(fs)
  }

  /** The `if`/`elif` chain: the four known names call their own backend,
      anything else (a non-string too) calls the gpt backend. */
  function Dispatch(model: Py.Json): (m: Model)
    ensures model.JStr? && FromName(model.s).Some? ==> m == FromName(model.s).value
    ensures !model.JStr? || FromName(model.s).None? ==> m == Gpt
  {
    if model == Py.JStr("gpt") then Gpt
    else if model == Py.JStr("deepseek") then Deepseek
    else if model == Py.JStr("mistral") then Mistral
    else if model == Py.JStr("gemini") then Gemini
    else Gpt
  }

  /** The `except` branch. */
  function Failed(e: Py.PyError): (r: RouteResult)
    ensures !r.success && r.model == Py.JStr("error")
    ensures r.confidence == Py.JNum(0.0) && r.modelScores == Py.JDict([])
    ensures r.indicators == PlainIndicators
    ensures PyStr.StartsWith(r.text, ErrorPrefix) && r.text[|ErrorPrefix|..] == e.Str()
  {
    var r := RouteResult(ErrorPrefix + e.Str(), Py.JStr("error"), false,
                         Py.JNum(0.0), Py.JDict([]), PlainIndicators);
    assert r.text[..|ErrorPrefix|] == ErrorPrefix;
    r
  }

  /** The success record: the reply text and the classification's
      confidence, scores and indicators, each with its default. */
  function Shape(text: string, model: Py.Json, classification: Py.Json): Result<RouteResult, Py.PyError> {
    if classification.JDict? then
      var fs := classification.fields;
      Success(RouteResult(text, model, true,
        Py.Get(fs, "confidence", Py.JNum(0.0)),
        Py.Get(fs, "model_scores", Py.JDict([])),
        Py.Get(fs, "indicators", Py.JDict([]))))
    else Failure(Py.AttributeError(Py.AttributeMessage(Py.TypeName(classification), "get")))
  }

  /** Call the backend `model` selects, make its reply a string and shape the record. */
  function Answer(prompt: string, model: Py.Json, classification: Py.Json, call: Call): Result<RouteResult, Py.PyError> {
    match call(Dispatch(model), prompt)
    case Raised(e) => Failure(e)
    case Text(s) => Shape(s, model, classification)
    case Object(shown) => Shape(shown, model, classification)
  }

  /** The body of the `try`. Without a model name, the classifier runs, the
      model is read from the classification under `modelKey`, and the two
      logging lines index "model_scores" and "indicators". */
  function Attempt(prompt: string, model: Option<string>, classify: Classify, call: Call,
                   modelKey: string): Result<RouteResult, Py.PyError> {
    if model.None? || model.value == "" then
      match classify(prompt)
      case Failure(e) => Failure(e)
      case Success(c) =>
        match Py.Index(c, modelKey)
        case Failure(e) => Failure(e)
        case Success(chosen) =>
          if Py.Index(c, "model_scores").Failure? then Failure(Py.Index(c, "model_scores").error)
          else if Py.Index(c, "indicators").Failure? then Failure(Py.Index(c, "indicators").error)
          else Answer(prompt, chosen, c, call)
    else
      Answer(prompt, Py.JStr(model.value), GivenClassification(model.value), call)
  }

  function Route(prompt: string, model: Option<string>, classify: Classify, call: Call,
                 modelKey: string): (r: RouteResult)
    ensures !r.success ==> && r.model == Py.JStr("error")
                           && r.confidence == Py.JNum(0.0) && r.modelScores == Py.JDict([])
                           && r.indicators == PlainIndicators
                           && PyStr.StartsWith(r.text, ErrorPrefix)
    ensures model.Some? && model.value != "" ==>
      var reply := call(Dispatch(Py.JStr(model.value)), prompt);
      && (r.success <==> !reply.Raised?)
      && (r.success ==> && r.model == Py.JStr(model.value)
                        && r.text == (if reply.Text? then reply.s else reply.shown)
                        && r.confidence == Py.JNum(1.0)
                        && r.modelScores == Py.JDict([(model.value, Py.JNum(1.0))])
                        && r.indicators == PlainIndicators)
  {
    match Attempt(prompt, model, classify, call, modelKey)
    case Success(r) => r
    case Failure(e) => Failed(e)
  }

  /** `route_prompt` as written: the classifier's choice is read under "recommended_model". */
  function RoutePrompt(prompt: string, model: Option<string>, classify: Classify, call: Call): (r: RouteResult)
    ensures !r.success ==> r.model == Py.JStr("error") && PyStr.StartsWith(r.text, ErrorPrefix)
    ensures model.Some? && model.value != "" ==>
      (r.success <==> !call(Dispatch(Py.JStr(model.value)), prompt).Raised?)
  {
    Route(prompt, model, classify, call, "recommended_model")
  }

  /** A named model that is not one of the four still reaches a backend,
      the gpt one, and is reported under its own name. */
  lemma UnknownNameFallsBackToGpt(prompt: string, name: string, classify: Classify, call: Call)
    requires name != "" && FromName(name).None?
    requires !call(Gpt, prompt).Raised?
    ensures var r := RoutePrompt(prompt, Some(name), classify, call);
      && r.success && r.model == Py.JStr(name)
      && r.text == (if call(Gpt, prompt).Text? then call(Gpt, prompt).s else call(Gpt, prompt).shown)
  {
  }

  /** The dictionary `classifier_agent.classify_prompt` returns. */
  function AgentDict(c: ClassifierAgent.Classification): Py.Json {
    Py.JDict([
      ("model", Py.JStr(c.model.Name())),
      ("task_type", Py.JStr(c.taskType.Name())),
      ("confidence", Py.JNum(c.confidence)),
      ("metadata", Py.JDict([
        ("complexity", Py.JStr(c.complexity.Name())),
        ("task_scores", NumDict(TaskNames(), c.taskScores)),
        ("model_scores", NumDict(ModelNames(ClassifierAgent.Models), ClassifierAgent.AsReals(c.modelScores))),
        ("complex_indicators_found", Py.JNum(c.complexFound as real)),
        ("technical_indicators_found", Py.JNum(c.technicalFound as real)),
        ("creative_indicators_found", Py.JNum(c.creativeFound as real)),
        ("practical_indicators_found", Py.JNum(c.practicalFound as real))]))])
  }

  /** The dictionary `prompt_classifier.classify_prompt` returns. */
  function PromptDict(p: PromptClassifier.PromptClass): Py.Json {
    var ind := p.indicators;
    Py.JDict([
      ("model", Py.JStr(p.model.Name())),
      ("confidence", Py.JNum(p.confidence)),
      ("model_scores", Py.JDict(seq(|p.scores|, i requires 0 <= i < |p.scores| =>
                                      (p.scores[i].0.Name(), Py.JNum(p.scores[i].1))))),
      ("indicators", Py.JDict([
        ("complex", Py.JBool(ind.complex)), ("technical", Py.JBool(ind.technical)),
        ("analytical", Py.JBool(ind.analytical)), ("simple", Py.JBool(ind.simple)),
        ("audio_related", Py.JBool(ind.audioRelated))]))])
  }

  function TaskNames(): seq<string> {
    seq(|ClassifierAgent.TaskTypes|, i requires 0 <= i < |ClassifierAgent.TaskTypes| => ClassifierAgent.TaskTypes[i].Name())
  }

  function ModelNames(ms: seq<Model>): seq<string> {
    seq(|ms|, i requires 0 <= i < |ms| => ms[i].Name())
  }

  /** A dictionary of numbers, keys and values paired up in order. */
  function NumDict(keys: seq<string>, values: seq<real>): Py.Json {
    var n := if |keys| < |values| then |keys| else |values|;
    Py.JDict(seq(n, i requires 0 <= i < n => (keys[i], Py.JNum(values[i]))))
  }

  /** Without a model name, a classification that has no "recommended_model"
      key always ends in the error record naming that key. */
  lemma MissingKeyAlwaysFails(prompt: string, classify: Classify, call: Call)
    requires classify(prompt).Success? && classify(prompt).value.JDict?
    requires !Py.HasKey(classify(prompt).value.fields, "recommended_model")
    ensures var r := RoutePrompt(prompt, None, classify, call);
      && r == Failed(Py.KeyError("recommended_model"))
      && r.text == ErrorPrefix + "'recommended_model'"
  {
    var key := "recommended_model";
    assert Py.Index(classify(prompt).value, key) == Failure(Py.KeyError(key));
    assert Attempt(prompt, None, classify, call, key) == Failure(Py.KeyError(key));
    assert Py.KeyError(key).Str() == "'recommended_model'";
  }

  /** Neither classifier of the repository returns a "recommended_model" key. */
  lemma NoClassifierHasTheKey(c: ClassifierAgent.Classification, p: PromptClassifier.PromptClass)
    ensures !Py.HasKey(AgentDict(c).fields, "recommended_model")
    ensures !Py.HasKey(PromptDict(p).fields, "recommended_model")
  {
  }

  /** With the classifier the router imports, a prompt routed without a
      model name never reaches a backend. */
  lemma {:induction false} ClassifiedPromptAlwaysFails(prompt: string, c: ClassifierAgent.Classification,
                                                       p: PromptClassifier.PromptClass, classify: Classify, call: Call)
    requires classify(prompt) == Success(AgentDict(c)) || classify(prompt) == Success(PromptDict(p))
    ensures var r := RoutePrompt(prompt, None, classify, call);
      && !r.success && r.text == ErrorPrefix + "'recommended_model'"
  {
    NoClassifierHasTheKey(c, p);
    MissingKeyAlwaysFails(prompt, classify, call);
  }

  /** `route_prompt` reading the classifier's choice under "model", the key
      the classifiers return. */
  function RoutePromptByModel(prompt: string, model: Option<string>, classify: Classify, call: Call): (r: RouteResult)
    ensures !r.success ==> r.model == Py.JStr("error") && PyStr.StartsWith(r.text, ErrorPrefix)
  {
    Route(prompt, model, classify, call, "model")
  }

  /** With the key read as "model", a `prompt_classifier` result routes to
      the chosen backend and reports its name and confidence. */
  lemma {:induction false} ClassifiedPromptReachesChosenBackend(prompt: string, p: PromptClassifier.PromptClass,
                                                                classify: Classify, call: Call)
    requires classify(prompt) == Success(PromptDict(p))
    ensures var r := RoutePromptByModel(prompt, None, classify, call);
      && (r.success <==> !call(p.model, prompt).Raised?)
      && (r.success ==> r.model == Py.JStr(p.model.Name()) && r.confidence == Py.JNum(p.confidence))
  {
    var c := PromptDict(p);
    PromptDictEntries(p);
    FromNameOfName(p.model);
    assert Dispatch(Py.JStr(p.model.Name())) == p.model;
    assert Attempt(prompt, None, classify, call, "model") == Answer(prompt, Py.JStr(p.model.Name()), c, call);
  }

  /** The entries of a `prompt_classifier` result the router reads. */
  lemma {:induction false} PromptDictEntries(p: PromptClassifier.PromptClass)
    ensures Py.Index(PromptDict(p), "model") == Success(Py.JStr(p.model.Name()))
    ensures Py.Index(PromptDict(p), "model_scores").Success? && Py.Index(PromptDict(p), "indicators").Success?
    ensures Py.Get(PromptDict(p).fields, "confidence", Py.JNum(0.0)) == Py.JNum(p.confidence)
  {
    var fs := PromptDict(p).fields;
    Py.LookupFirst(fs, "model", 0);
    Py.LookupFirst(fs, "confidence", 1);
    assert fs[2].0 == "model_scores" && fs[3].0 == "indicators";
    assert Py.HasKey(fs, "model") && Py.HasKey(fs, "model_scores") && Py.HasKey(fs, "indicators");
  }

  /** Even read under "model", a `classifier_agent` result fails at the
      logging line, which indexes a top-level "model_scores" that only its
      "metadata" holds. */
  lemma AgentResultFailsAtScores(prompt: string, c: ClassifierAgent.Classification, classify: Classify, call: Call)
    requires classify(prompt) == Success(AgentDict(c))
    ensures RoutePromptByModel(prompt, None, classify, call) == Failed(Py.KeyError("model_scores"))
  {
    var fs := AgentDict(c).fields;
    Py.LookupFirst(fs, "model", 0);
    assert !Py.HasKey(fs, "model_scores");
    assert Py.Index(AgentDict(c), "model_scores") == Failure(Py.KeyError("model_scores"));
  }
}
