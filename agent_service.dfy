/** `AgentService`: a registry of customer-service agents and the rules an
    agent applies to an incoming message before it reaches the router:
    human-handoff triggers, product and plan lookup, and the assembly of
    the reply. The router, the conversation memory and the prompt template
    are the modelled ones or parameters. */
module AgentService {
  import opened Wrappers
  import Py
  import PyStr
  import Router
  import ConversationMemory

  datatype Product = Product(name: string, description: string, price: Option<string>)

  datatype Plan = Plan(name: string, speed: string, price: string, extras: seq<string>)

  /** A copy of a plan tagged with the category it was found under. */
  datatype TaggedPlan = TaggedPlan(plan: Plan, category: string)

  /** The parts of an agent the modelled rules read. The plan catalogue is
      a dict from category to plans, kept here in its insertion order. */
  datatype Agent = Agent(
    id: string,
    name: string,
    triggers: seq<string>,
    products: seq<Product>,
    catalog: seq<(string, seq<Plan>)>)

  /** The routed part of a reply: the router's record and the agent fields
      added to it. */
  datatype Routed = Routed(result: Router.RouteResult, agentId: string, agentName: string)

  /** What `process_message` returns. */
  datatype AgentReply = AgentReply(text: string, success: bool, needHuman: bool, routed: Option<Routed>)

  const NotFoundText: string :=
    "Desculpe, houve um erro no processamento da sua mensagem. Por favor, tente novamente mais tarde."
  const HandoffText: string :=
    "Olá! Entendo que você precisa de um atendimento mais personalizado. Vou transferir você para um dos nossos atendentes humanos da G4 TELECOM. Aguarde um momento, por favor."
  const FailureText: string :=
    "Desculpe, ocorreu um erro ao processar sua mensagem. Estou encaminhando para um atendente humano da G4 TELECOM que poderá ajudá-lo melhor."

  /** The word budget `process_message` leaves at its default. */
  const ContextTokens: int := 4000

  /** The agent's prompt template filled with the message and the context. */
  type PromptFormatter = (Agent, string, string) -> string

  /** Some trigger, lower-cased, occurs in the lower-cased message. */
  predicate Triggered(agent: Agent, message: string): (r: bool)
    ensures |agent.triggers| == 0 ==> !r
    ensures (exists i :: 0 <= i < |agent.triggers| && agent.triggers[i] == "") ==> r
  {
    exists i :: 0 <= i < |agent.triggers| && PyStr.Contains(PyStr.Lower(message), PyStr.Lower(agent.triggers[i]))
  }

  /** The product's lower-cased name occurs in the lower-cased query `q`. */
  predicate ProductMatches(product: Product, q: string) {
    PyStr.Contains(q, PyStr.Lower(product.name))
  }

  /** The plan's lower-cased name or speed occurs in the lower-cased query `q`. */
  predicate PlanMatches(plan: Plan, q: string) {
    PyStr.Contains(q, PyStr.Lower(plan.name)) || PyStr.Contains(q, PyStr.Lower(plan.speed))
  }

  /** The matching plans of one category, in list order, tagged with it. */
  function CategoryMatches(category: string, plans: seq<Plan>, q: string): (r: seq<TaggedPlan>)
    ensures |r| <= |plans|
    ensures forall t :: t in r ==> t.category == category && PlanMatches(t.plan, q)
    decreases |plans|
  {
    if |plans| == 0 then []
    else
      var last := plans[|plans| - 1];
      CategoryMatches(category, plans[..|plans| - 1], q)
        + (if PlanMatches(last, q) then [TaggedPlan(last, category)] else [])
  }

  /** The matching plans of the whole catalogue, category by category. */
  function CatalogMatches(catalog: seq<(string, seq<Plan>)>, q: string): (r: seq<TaggedPlan>)
    ensures forall t :: t in r ==> PlanMatches(t.plan, q)
    decreases |catalog|
  {
    if |catalog| == 0 then []
    else
      var last := catalog[|catalog| - 1];
      CatalogMatches(catalog[..|catalog| - 1], q) + CategoryMatches(last.0, last.1, q)
  }

  /** A category yields exactly its matching plans, each tagged with it. */
  lemma {:induction false} CategoryMatchesExactly(category: string, plans: seq<Plan>, q: string, t: TaggedPlan)
    ensures t in CategoryMatches(category, plans, q) <==> t.category == category && t.plan in plans && PlanMatches(t.plan, q)
    decreases |plans|
  {
    if |plans| > 0 {
      var init := plans[..|plans| - 1];
      CategoryMatchesExactly(category, init, q, t);
      assert plans == init + [plans[|plans| - 1]];
    }
  }

  /** The catalogue yields exactly the matching plans of its categories. */
  lemma {:induction false} CatalogMatchesExactly(catalog: seq<(string, seq<Plan>)>, q: string, t: TaggedPlan)
    ensures t in CatalogMatches(catalog, q) <==>
      (exists c :: 0 <= c < |catalog| && t.category == catalog[c].0 && t.plan in catalog[c].1) && PlanMatches(t.plan, q)
    decreases |catalog|
  {
    if |catalog| > 0 {
      var n := |catalog| - 1;
      var init := catalog[..n];
      CatalogMatchesExactly(init, q, t);
      CategoryMatchesExactly(catalog[n].0, catalog[n].1, q, t);
      if exists c :: 0 <= c < |catalog| && t.category == catalog[c].0 && t.plan in catalog[c].1 {
        var c :| 0 <= c < |catalog| && t.category == catalog[c].0 && t.plan in catalog[c].1;
        if c < n {
          assert init[c] == catalog[c];
        }
      }
      if exists c :: 0 <= c < |init| && t.category == init[c].0 && t.plan in init[c].1 {
        var c :| 0 <= c < |init| && t.category == init[c].0 && t.plan in init[c].1;
        assert catalog[c] == init[c];
      }
    }
  }

  /** Python's answer to a call of `route_prompt` with the keyword
      `sender_phone`, which the method does not declare. */
  function RouteWithSenderPhone(prompt: string, sender: string): (r: Result<Router.RouteResult, Py.PyError>)
    ensures r.Failure? && r.error.TypeError?
  {
    Failure(Py.TypeError("LLMRouter.route_prompt() got an unexpected keyword argument 'sender_phone'"))
  }

  /** The reply built from a router record. */
  function RoutedReply(result: Router.RouteResult, agent: Agent, agentId: string): (reply: AgentReply)
    ensures reply.text == result.text && reply.success == result.success && !reply.needHuman
    ensures reply.routed == Some(Routed(result, agentId, agent.name))
  {
    AgentReply(result.text, result.success, false, Some(Routed(result, agentId, agent.name)))
  }

  /** The reply `process_message` gives over the memory `store`: the
      not-found and handoff replies without the router, otherwise the
      router's record for the agent's prompt over the sender's context. */
  function Answer(agents: map<string, Agent>, agentId: string, message: string, sender: string,
                  store: ConversationMemory.Store, reachable: bool,
                  format: PromptFormatter, classify: Router.Classify, call: Router.Call): (reply: AgentReply)
    ensures reply.routed.None? <==> agentId !in agents || Triggered(agents[agentId], message)
    ensures reply.needHuman <==> agentId !in agents || Triggered(agents[agentId], message)
    ensures reply.routed.Some? ==>
      && agentId in agents && reply.routed.value.agentName == agents[agentId].name
      && reply.routed.value.agentId == agentId && reply.text == reply.routed.value.result.text
  {
    if agentId !in agents then AgentReply(NotFoundText, false, true, None)
    else if Triggered(agents[agentId], message) then AgentReply(HandoffText, true, true, None)
    else
      var context := if reachable then ConversationMemory.Context(ConversationMemory.WithRecord(store, sender)[sender].messages,
                                                                   ContextTokens)
                     else "";
      RoutedReply(Router.RoutePromptByModel(format(agents[agentId], message, context), None, classify, call),
                  agents[agentId], agentId)
  }

  class Service {
    var agents: map<string, Agent>

    /** The service starts with the G4 Telecom agent under its fixed id. */
    constructor (g4: Agent)
      ensures agents == map["g4-telecom" := g4]
    {
      agents := map["g4-telecom" := g4];
    }

    /** `register_agent`: the agent is stored under its own id, replacing
        any agent registered there before. */
    method RegisterAgent(agent: Agent)
      modifies this
      ensures agents.Keys == old(agents).Keys + {agent.id}
      ensures agents[agent.id] == agent
      ensures forall k :: k in old(agents) && k != agent.id ==> agents[k] == old(agents)[k]
    {
      agents := agents[agent.id := agent];
    }

    /** `get_agent`. */
    method GetAgent(agentId: string) returns (r: Option<Agent>)
      ensures r.Some? <==> agentId in agents
      ensures r.Some? ==> r.value == agents[agentId]
    {
      if agentId in agents {
        r := Some(agents[agentId]);
      } else {
        r := None;
      }
    }

    /** `process_message` as written: a message that reaches the router
        always ends in the failure reply, because the router is called with
        a keyword it does not accept. The memory record is still created by
        the context lookup that precedes the call. */
    method ProcessMessage(agentId: string, message: string, sender: string,
                          memory: ConversationMemory.ConversationManager, reachable: bool,
                          format: PromptFormatter) returns (reply: AgentReply)
      modifies memory
      ensures agentId !in agents ==> reply == AgentReply(NotFoundText, false, true, None)
      ensures agentId in agents && Triggered(agents[agentId], message) ==> reply == AgentReply(HandoffText, true, true, None)
      ensures agentId !in agents || Triggered(agents[agentId], message) ==> memory.store == old(memory.store)
      ensures agentId in agents && !Triggered(agents[agentId], message) ==>
        && reply == AgentReply(FailureText, false, true, None)
        && memory.store == if reachable then ConversationMemory.WithRecord(old(memory.store), sender) else old(memory.store)
    {
      var agent := GetAgent(agentId);
      if agent.None? {
        return AgentReply(NotFoundText, false, true, None);
      }
      var found := agent.value;
      var needHuman := ShouldHandoffToHuman(found, message);
      if needHuman {
        return AgentReply(HandoffText, true, true, None);
      }
      var context := memory.FormatConversationForLlm(sender, ContextTokens, reachable);
      var prompt := format(found, message, context);
      var routed := RouteWithSenderPhone(prompt, sender);
      reply := match routed
        case Failure(_) => AgentReply(FailureText, false, true, None)
        case Success(result) => RoutedReply(result, found, agentId);
    }

    /** `process_message` calling the router with the prompt alone, and the
        router reading the classifier's "model" key: the router's record is
        returned with the agent's fields and `need_human` false. */
    method ProcessMessageRouted(agentId: string, message: string, sender: string,
                                memory: ConversationMemory.ConversationManager, reachable: bool,
                                format: PromptFormatter, classify: Router.Classify, call: Router.Call)
      returns (reply: AgentReply)
      modifies memory
      ensures agentId !in agents ==> reply == AgentReply(NotFoundText, false, true, None)
      ensures agentId in agents && Triggered(agents[agentId], message) ==> reply == AgentReply(HandoffText, true, true, None)
      ensures agentId !in agents || Triggered(agents[agentId], message) ==> memory.store == old(memory.store)
      ensures agentId in agents && !Triggered(agents[agentId], message) ==>
        && memory.store == (if reachable then ConversationMemory.WithRecord(old(memory.store), sender) else old(memory.store))
        && var context := if reachable then ConversationMemory.Context(memory.store[sender].messages, ContextTokens) else "";
           reply == RoutedReply(Router.RoutePromptByModel(format(agents[agentId], message, context), None, classify, call),
                                agents[agentId], agentId)
      ensures reply == Answer(agents, agentId, message, sender, old(memory.store), reachable, format, classify, call)
    {
      var agent := GetAgent(agentId);
      if agent.None? {
        return AgentReply(NotFoundText, false, true, None);
      }
      var needHuman := ShouldHandoffToHuman(agent.value, message);
      if needHuman {
        return AgentReply(HandoffText, true, true, None);
      }
      var context := memory.FormatConversationForLlm(sender, ContextTokens, reachable);
      var prompt := format(agent.value, message, context);
      var result := Router.RoutePromptByModel(prompt, None, classify, call);
      reply := RoutedReply(result, agent.value, agentId);
    }
  }

  /** `_should_handoff_to_human`: the first trigger found decides. */
  method ShouldHandoffToHuman(agent: Agent, message: string) returns (handoff: bool)
    ensures handoff <==> Triggered(agent, message)
  {
    var lowered := PyStr.Lower(message);
    var i := 0;
    while i < |agent.triggers|
      invariant 0 <= i <= |agent.triggers|
      invariant forall j :: 0 <= j < i ==> !PyStr.Contains(lowered, PyStr.Lower(agent.triggers[j]))
    {
      if PyStr.Contains(lowered, PyStr.Lower(agent.triggers[i])) {
        return true;
      }
      i := i + 1;
    }
    return false;
  }

  /** `_get_product_info`: the first product, in list order, whose name
      occurs in the query. */
  method GetProductInfo(agent: Agent, query: string) returns (r: Option<Product>)
    ensures r.None? <==> forall j :: 0 <= j < |agent.products| ==> !ProductMatches(agent.products[j], PyStr.Lower(query))
    ensures r.Some? ==> exists i :: && 0 <= i < |agent.products| && agent.products[i] == r.value
                                    && ProductMatches(agent.products[i], PyStr.Lower(query))
                                    && forall j :: 0 <= j < i ==> !ProductMatches(agent.products[j], PyStr.Lower(query))
  {
    var q := PyStr.Lower(query);
    var i := 0;
    while i < |agent.products|
      invariant 0 <= i <= |agent.products|
      invariant forall j :: 0 <= j < i ==> !ProductMatches(agent.products[j], q)
    {
      if PyStr.Contains(q, PyStr.Lower(agent.products[i].name)) {
        return Some(agent.products[i]);
      }
      i := i + 1;
    }
    return None;
  }

  /** `_get_plan_info`: every matching plan of every category, tagged with
      its category, in category-then-list order. */
  method GetPlanInfo(agent: Agent, query: string) returns (found: seq<TaggedPlan>)
    ensures found == CatalogMatches(agent.catalog, PyStr.Lower(query))
  {
    var q := PyStr.Lower(query);
    var catalog := agent.catalog;
    found := [];
    var c := 0;
    while c < |catalog|
      invariant 0 <= c <= |catalog|
      invariant found == CatalogMatches(catalog[..c], q)
    {
      var category := catalog[c].0;
      var plans := catalog[c].1;
      var i := 0;
      while i < |plans|
        invariant 0 <= i <= |plans|
        invariant found == CatalogMatches(catalog[..c], q) + CategoryMatches(category, plans[..i], q)
      {
        if PyStr.Contains(q, PyStr.Lower(plans[i].name)) || PyStr.Contains(q, PyStr.Lower(plans[i].speed)) {
          found := found + [TaggedPlan(plans[i], category)];
        }
        assert plans[..i + 1][..i] == plans[..i];
        i := i + 1;
      }
      assert plans[..i] == plans;
      assert catalog[..c + 1][..c] == catalog[..c];
      c := c + 1;
    }
    assert catalog[..c] == catalog;
  }

  /** With the corrected router and a `prompt_classifier` result, a message
      that reaches the router is answered by the chosen backend, and the
      reply succeeds exactly when that backend does not raise. */
  lemma {:induction false} RoutedReplyFollowsBackend(prompt: string, agent: Agent, agentId: string,
                                                     p: Router.PromptClassifier.PromptClass,
                                                     classify: Router.Classify, call: Router.Call)
    requires classify(prompt) == Success(Router.PromptDict(p))
    ensures var reply := RoutedReply(Router.RoutePromptByModel(prompt, None, classify, call), agent, agentId);
      && (reply.success <==> !call(p.model, prompt).Raised?)
      && !reply.needHuman && reply.routed.Some? && reply.routed.value.agentName == agent.name
  {
    Router.ClassifiedPromptReachesChosenBackend(prompt, p, classify, call);
  }
}
