/** The four language-model backends the router can call. */
module Backends {
  import opened Wrappers

  datatype Model = Gpt | Deepseek | Mistral | Gemini {
    /** The name the backend goes by in requests and results. */
    function Name(): string {
      match this
      case Gpt => "gpt"
      case Deepseek => "deepseek"
      case Mistral => "mistral"
      case Gemini => "gemini"
    }
  }

  /** The backend a name denotes, if any. */
  function FromName(s: string): (m: Option<Model>)
    ensures m.Some? ==> m.value.Name() == s
    ensures m.None? ==> s !in {"gpt", "deepseek", "mistral", "gemini"}
  {
    if s == "gpt" then Some(Gpt)
    else if s == "deepseek" then Some(Deepseek)
    else if s == "mistral" then Some(Mistral)
    else if s == "gemini" then Some(Gemini)
    else None
  }

  /** Every backend is found again from its name. */
  lemma FromNameOfName(m: Model)
    ensures FromName(m.Name()) == Some(m)
  {
  }
}
