/** The request orchestration of the HTTP routes: the request and response
    models, how each endpoint turns its collaborators' answers into a response,
    and the lazily built service singletons the endpoints share. The
    collaborators (memory manager, language model, quantum service, evolution
    processor, storage) are parameters; every call the routes make to them is
    appended to a ghost log so that precedence, ordering and "exactly once"
    can be stated. An exception raised by a collaborator is a `Failure` carrying
    its message. */
module Routes {
  import opened Wrappers

  // ---------------------------------------------------------------------
  // Request and response models
  // ---------------------------------------------------------------------

  datatype ConversationMessage = ConversationMessage(role: string, content: string)

  datatype ConversationContext = ConversationContext(messages: seq<ConversationMessage>, memories: string)

  /** A message in dict form, `{"role": ..., "content": ...}`. */
  datatype MessageDict = MessageDict(role: string, content: string)

  /** A conversation context in dict form. A key the dict lacks is `None`;
      `extraKeys` counts the keys a ConversationContext has no field for. */
  datatype ContextDict = ContextDict(messages: Option<seq<MessageDict>>, memories: Option<string>, extraKeys: nat)
  {
    /** Python's truth value of a dict: it has at least one key. */
    predicate NonEmpty() {
      messages.Some? || memories.Some? || extraKeys > 0
    }
  }

  datatype GenerateRequest = GenerateRequest(
    prompt: string,
    quantumInfluence: real,
    conversationContext: Option<ConversationContext>,
    userId: Option<string>)

  datatype GenerateResponse = GenerateResponse(response: string, tokensUsed: Option<int>, source: string)

  /** The dict the language model returns; a key it lacks is `None`. */
  datatype LlmResult = LlmResult(response: Option<string>, source: Option<string>)

  datatype Interaction = Interaction(
    userId: string,
    query: string,
    response: string,
    cycleId: Option<string>,
    energy: real,
    quantumSeed: real,
    rewardScore: real)

  /** The dict the quantum service returns; a key it lacks is `None`. */
  datatype QuantumRandom = QuantumRandom(value: Option<real>)

  datatype QuantumInfluenceResponse = QuantumInfluenceResponse(influence: real, randomValue: real)

  datatype EvolveRequest = EvolveRequest(cycleId: string, fineTune: bool)

  /** What the evolve request model accepts: `fine_tune` defaults to true. */
  function ValidateEvolveRequest(cycleId: string, fineTune: Option<bool>): (r: EvolveRequest)
    ensures r.cycleId == cycleId
    ensures fineTune.Some? ==> r.fineTune == fineTune.value
    ensures fineTune.None? ==> r.fineTune
  {
    EvolveRequest(cycleId, fineTune.GetOr(true))
  }

  /** A JSON object passed through without being looked into. */
  type Record = map<string, string>

  /** The `model_training` dict of an evolution result. */
  datatype ModelTraining = ModelTraining(weightId: Option<string>, extraKeys: nat)
  {
    predicate NonEmpty() {
      weightId.Some? || extraKeys > 0
    }
  }

  /** The dict the evolution processor returns; a key it lacks is `None`. */
  datatype EvolutionResult = EvolutionResult(
    status: Option<string>,
    modelTraining: Option<ModelTraining>,
    topContributors: Option<seq<Record>>)

  datatype EvolveResponse = EvolveResponse(status: string, loraWeightsId: Option<string>, topContributors: seq<Record>)

  /** What `GET /memory/{user_id}` answers. */
  datatype MemoryView = MemoryView(userId: string, context: Option<ContextDict>)

  datatype HttpError = HttpError(status: nat, detail: string)

  const DefaultQuantumInfluence: real := 0.7
  const DefaultSource: string := "obelisk_llm"
  const DefaultRandomValue: real := 0.5
  const DefaultEvolveStatus: string := "completed"
  const QuantumQubits: nat := 2
  const QuantumShots: nat := 128
  const NotFound: HttpError := HttpError(404, "Cycle not found")

  /** Any other exception inside a handler becomes a 500 carrying its message. */
  function ServerError(message: string): HttpError {
    HttpError(500, message)
  }

  /** Python's truth value of an optional user id: present and not empty. */
  predicate UserGiven(userId: Option<string>) {
    userId.Some? && userId.value != ""
  }

  // ---------------------------------------------------------------------
  // Conversation context: dict form and back
  // ---------------------------------------------------------------------

  /** `ConversationContext.to_dict`: the messages in order, each with its role
      and content, and the memories verbatim. */
  function ToDict(context: ConversationContext): (d: ContextDict)
    ensures d.messages.Some? && |d.messages.value| == |context.messages|
    ensures forall i :: 0 <= i < |context.messages| ==>
      d.messages.value[i].role == context.messages[i].role && d.messages.value[i].content == context.messages[i].content
    ensures d.memories == Some(context.memories) && d.extraKeys == 0
    ensures d.NonEmpty()
  {
    var messages := seq(|context.messages|, i requires 0 <= i < |context.messages| =>
      MessageDict(context.messages[i].role, context.messages[i].content));
    ContextDict(Some(messages), Some(context.memories), 0)
  }

  /** `ConversationContext(**d)`: a missing key takes the model's default (no
      messages, empty memories) and keys without a field are ignored. */
  function FromDict(d: ContextDict): (context: ConversationContext)
    ensures |context.messages| == |d.messages.GetOr([])|
    ensures forall i :: 0 <= i < |context.messages| ==>
      context.messages[i].role == d.messages.GetOr([])[i].role && context.messages[i].content == d.messages.GetOr([])[i].content
    ensures context.memories == d.memories.GetOr("")
  {
    var messages := d.messages.GetOr([]);
    ConversationContext(
      seq(|messages|, i requires 0 <= i < |messages| => ConversationMessage(messages[i].role, messages[i].content)),
      d.memories.GetOr(""))
  }

  /** A context survives the trip to dict form and back unchanged. */
  lemma FromDictOfToDict(context: ConversationContext)
    ensures FromDict(ToDict(context)) == context
  {
    assert FromDict(ToDict(context)).messages == context.messages;
  }

  /** A dict with exactly the two known keys survives the trip to a context and back. */
  lemma ToDictOfFromDict(d: ContextDict)
    requires d.messages.Some? && d.memories.Some? && d.extraKeys == 0
    ensures ToDict(FromDict(d)) == d
  {
    assert ToDict(FromDict(d)).messages.value == d.messages.value;
  }

  // ---------------------------------------------------------------------
  // Calls to collaborators
  // ---------------------------------------------------------------------

  /** One call the routes make to a collaborator. */
  datatype Call =
    | FetchContext(userId: string, userQuery: string)
    | LlmGenerate(query: string, quantumInfluence: real, context: Option<ContextDict>)
    | AddInteraction(interaction: Interaction)
    | SaveInteraction(saveUserId: string, saveQuery: string, saveResponse: string)
    | GetQuantumRandom(quantumService: IbmQuantumService, numQubits: nat, shots: nat)
    | ProcessEvolutionCycle(cycleId: string, evolveStorage: Storage, evolveLlm: ObeliskLlm, fineTuneModel: bool)
    | GetEvolutionCycle(cycleStorage: Storage, lookupId: string)

  /** What `pick` selects from one call: nothing or one element. */
  function Picked<T>(c: Call, pick: Call -> Option<T>): seq<T> {
    match pick(c)
    case Some(x) => [x]
    case None => []
  }

  /** The elements `pick` selects from `calls`, in order. */
  function Project<T>(calls: seq<Call>, pick: Call -> Option<T>): (r: seq<T>)
    ensures |r| <= |calls|
  {
    if calls == [] then [] else Picked(calls[0], pick) + Project(calls[1..], pick)
  }

  lemma {:induction false} ProjectAppend<T>(a: seq<Call>, b: seq<Call>, pick: Call -> Option<T>)
    ensures Project(a + b, pick) == Project(a, pick) + Project(b, pick)
  {
    if a == [] {
      assert a + b == b;
    } else {
      var ab := a + b;
      assert ab[0] == a[0] && ab[1..] == a[1..] + b;
      ProjectAppend(a[1..], b, pick);
      calc {
        Project(ab, pick);
        Picked(a[0], pick) + Project(a[1..] + b, pick);
        Picked(a[0], pick) + (Project(a[1..], pick) + Project(b, pick));
        (Picked(a[0], pick) + Project(a[1..], pick)) + Project(b, pick);
        Project(a, pick) + Project(b, pick);
      }
    }
  }

  lemma ProjectSnoc<T>(s: seq<Call>, c: Call, pick: Call -> Option<T>)
    ensures Project(s + [c], pick) == Project(s, pick) + Picked(c, pick)
  {
    assert [c][1..] == [];
    assert Project([c], pick) == Picked(c, pick) + [];
    ProjectAppend(s, [c], pick);
  }

  /** The three projections of a log that grows by one call. */
  lemma ProjectionsOfSnoc(s: seq<Call>, c: Call)
    ensures ContextFetches(s + [c]) == ContextFetches(s) + (if c.FetchContext? then [(c.userId, c.userQuery)] else [])
    ensures ModelCalls(s + [c]) == ModelCalls(s) + (if c.LlmGenerate? then [(c.query, c.quantumInfluence, c.context)] else [])
    ensures Recorded(s + [c]) == Recorded(s) + (if c.AddInteraction? then [c.interaction] else [])
  {
    ProjectSnoc(s, c, FetchOf);
    ProjectSnoc(s, c, ModelCallOf);
    ProjectSnoc(s, c, RecordOf);
  }

  function FetchOf(c: Call): Option<(string, string)> {
    if c.FetchContext? then Some((c.userId, c.userQuery)) else None
  }

  function ModelCallOf(c: Call): Option<(string, real, Option<ContextDict>)> {
    if c.LlmGenerate? then Some((c.query, c.quantumInfluence, c.context)) else None
  }

  function RecordOf(c: Call): Option<Interaction> {
    if c.AddInteraction? then Some(c.interaction) else None
  }

  /** The memory manager's context look-ups, as (user id, query). */
  function ContextFetches(calls: seq<Call>): seq<(string, string)> {
    Project(calls, FetchOf)
  }

  /** The language model's invocations, as (query, influence, context). */
  function ModelCalls(calls: seq<Call>): seq<(string, real, Option<ContextDict>)> {
    Project(calls, ModelCallOf)
  }

  /** The interactions `generate` hands to the memory manager for
      persistence (`POST /memory` logs its own `SaveInteraction` calls). */
  function Recorded(calls: seq<Call>): seq<Interaction> {
    Project(calls, RecordOf)
  }

  // ---------------------------------------------------------------------
  // POST /generate
  // ---------------------------------------------------------------------

  /** What the request model accepts: `quantum_influence` defaults to 0.7 and
      a value outside [0, 1] is rejected before the handler runs. */
  function ValidateGenerateRequest(
    prompt: string,
    quantumInfluence: Option<real>,
    conversationContext: Option<ConversationContext>,
    userId: Option<string>): (r: Option<GenerateRequest>)
    ensures r.Some? <==> quantumInfluence.None? || 0.0 <= quantumInfluence.value <= 1.0
    ensures r.Some? ==> 0.0 <= r.value.quantumInfluence <= 1.0
    ensures r.Some? ==> r.value == GenerateRequest(prompt, quantumInfluence.GetOr(DefaultQuantumInfluence), conversationContext, userId)
  {
    var influence := quantumInfluence.GetOr(DefaultQuantumInfluence);
    if 0.0 <= influence <= 1.0 then Some(GenerateRequest(prompt, influence, conversationContext, userId)) else None
  }

  /** The response text of a generation result, `''` when it has none. */
  function ResponseText(result: LlmResult): string {
    result.response.GetOr("")
  }

  /** The response of a successful generation: its text or `''`, its source or
      `'obelisk_llm'`, and no token count. */
  function GenerateResponseOf(result: LlmResult): (r: GenerateResponse)
    ensures r.response == (if result.response.Some? then result.response.value else "")
    ensures r.source == (if result.source.Some? then result.source.value else DefaultSource)
    ensures r.tokensUsed.None?
  {
    GenerateResponse(ResponseText(result), None, result.source.GetOr(DefaultSource))
  }

  /** The context the language model is given: the caller's own when there is
      one; otherwise, for a user, the memory manager's when it is not empty;
      otherwise none. A failed look-up fails the request. */
  function ResolveContext(
    request: GenerateRequest,
    fetch: (string, string) -> Result<Option<ContextDict>, string>): (r: Result<Option<ContextDict>, string>)
    ensures request.conversationContext.Some? ==> r == Success(Some(ToDict(request.conversationContext.value)))
    ensures request.conversationContext.None? && !UserGiven(request.userId) ==> r == Success(None)
    ensures request.conversationContext.None? && UserGiven(request.userId) ==>
      match fetch(request.userId.value, request.prompt)
      case Failure(e) => r == Failure(e)
      case Success(None) => r == Success(None)
      case Success(Some(d)) => r == Success(if d.NonEmpty() then Some(ToDict(FromDict(d))) else None)
  {
    var fetched :=
      if UserGiven(request.userId) && request.conversationContext.None?
      then
        match fetch(request.userId.value, request.prompt)
        case Failure(e) => Failure(e)
        case Success(d) => Success(if d.Some? && d.value.NonEmpty() then Some(FromDict(d.value)) else None)
      else Success(request.conversationContext);
    match fetched
    case Failure(e) => Failure(e)
    case Success(context) => Success(if context.Some? then Some(ToDict(context.value)) else None)
  }

  /** The model's answer to the request, or why there is none. */
  function Generation(request: GenerateRequest, env: GenerateEnv): Result<LlmResult, string> {
    match ResolveContext(request, env.fetchContext)
    case Failure(e) => Failure(e)
    case Success(context) => env.llmGenerate(request.prompt, request.quantumInfluence, context)
  }

  /** The interaction persisted for a user after a generation. */
  function InteractionFor(request: GenerateRequest, result: LlmResult): Interaction
    requires request.userId.Some?
  {
    Interaction(request.userId.value, request.prompt, ResponseText(result), None, 0.0, request.quantumInfluence, 0.0)
  }

  /** The memory manager's and the language model's behaviour during one request. */
  datatype GenerateEnv = GenerateEnv(
    fetchContext: (string, string) -> Result<Option<ContextDict>, string>,
    llmGenerate: (string, real, Option<ContextDict>) -> Result<LlmResult, string>,
    addInteraction: Interaction -> Outcome<string>)

  /** An endpoint's answer together with the calls it made, oldest first. */
  datatype Handled<T> = Handled(result: Result<T, HttpError>, calls: seq<Call>)

  /** The memory look-up `generate` makes: one for a user who brought no
      context, none otherwise. */
  function MemoryLookup(request: GenerateRequest): seq<Call> {
    if UserGiven(request.userId) && request.conversationContext.None?
    then [FetchContext(request.userId.value, request.prompt)] else []
  }

  /** The part of `generate` after the context is resolved: invoke the model
      and, for a user, persist the interaction before answering. */
  function GenerateWithContext(request: GenerateRequest, env: GenerateEnv, context: Option<ContextDict>): Handled<GenerateResponse> {
    var generated := [LlmGenerate(request.prompt, request.quantumInfluence, context)];
    match env.llmGenerate(request.prompt, request.quantumInfluence, context)
    case Failure(e) =>
      Handled(Failure(ServerError(e)), generated)
    case Success(result) =>
      if !UserGiven(request.userId) then
        Handled(Success(GenerateResponseOf(result)), generated)
      else
        var interaction := InteractionFor(request, result);
        var all := generated + [AddInteraction(interaction)];
        match env.addInteraction(interaction)
        case Fail(e) => Handled(Failure(ServerError(e)), all)
        case Pass => Handled(Success(GenerateResponseOf(result)), all)
  }

  /** `generate`: resolve the context, generate, then (for a user) persist the
      interaction, and answer. Every failure is a 500; the request succeeds
      iff generation and, for a user, persistence do, and then answers with
      the generation's response. */
  function HandleGenerate(request: GenerateRequest, env: GenerateEnv): (o: Handled<GenerateResponse>)
    ensures o.result.Failure? ==> o.result.error.status == 500
    ensures o.result.Success? <==>
      && Generation(request, env).Success?
      && (UserGiven(request.userId) ==> env.addInteraction(InteractionFor(request, Generation(request, env).value)).Pass?)
    ensures o.result.Success? ==> o.result.value == GenerateResponseOf(Generation(request, env).value)
  {
    match ResolveContext(request, env.fetchContext)
    case Failure(e) =>
      Handled(Failure(ServerError(e)), MemoryLookup(request))
    case Success(context) =>
      var rest := GenerateWithContext(request, env, context);
      Handled(rest.result, MemoryLookup(request) + rest.calls)
  }

  lemma MemoryLookupProjections(request: GenerateRequest)
    ensures ContextFetches(MemoryLookup(request)) ==
      if UserGiven(request.userId) && request.conversationContext.None?
      then [(request.userId.value, request.prompt)] else []
    ensures ModelCalls(MemoryLookup(request)) == [] && Recorded(MemoryLookup(request)) == []
  {
    var f := FetchContext(request.userId.GetOr(""), request.prompt);
    ProjectionsOfSnoc([], f);
    assert [] + [f] == [f];
  }

  /** The model call `generate` makes once its context is resolved, and none
      when resolving it failed. */
  function ModelCallFor(request: GenerateRequest, env: GenerateEnv): seq<Call> {
    match ResolveContext(request, env.fetchContext)
    case Failure(_) => []
    case Success(context) => [LlmGenerate(request.prompt, request.quantumInfluence, context)]
  }

  /** The persistence `generate` asks for: one for a user whose generation
      succeeded, none otherwise. */
  function PersistenceFor(request: GenerateRequest, env: GenerateEnv): seq<Call> {
    if UserGiven(request.userId) && Generation(request, env).Success?
    then [AddInteraction(InteractionFor(request, Generation(request, env).value))] else []
  }

  /** The calls of one `generate` request, oldest first: the memory look-up,
      then the model call, then the persistence. */
  lemma GenerateCallOrder(request: GenerateRequest, env: GenerateEnv)
    ensures HandleGenerate(request, env).calls ==
      MemoryLookup(request) + ModelCallFor(request, env) + PersistenceFor(request, env)
  {
    match ResolveContext(request, env.fetchContext)
    case Failure(_) =>
    case Success(context) =>
      var g := LlmGenerate(request.prompt, request.quantumInfluence, context);
      match env.llmGenerate(request.prompt, request.quantumInfluence, context)
      case Failure(_) =>
      case Success(result) =>
        if UserGiven(request.userId) {
          var add := AddInteraction(InteractionFor(request, result));
          assert MemoryLookup(request) + ([g] + [add]) == MemoryLookup(request) + [g] + [add];
        }
  }

  lemma ProjectSingleton<T>(c: Call, pick: Call -> Option<T>)
    ensures Project([c], pick) == Picked(c, pick)
  {
    assert [c][1..] == [];
  }

  /** Each projection of a request's calls comes from one phase alone: the
      look-ups from memory resolution, the model calls from generation, the
      persisted interactions from persistence. */
  lemma GenerateProjections(request: GenerateRequest, env: GenerateEnv)
    ensures ContextFetches(HandleGenerate(request, env).calls) == ContextFetches(MemoryLookup(request))
    ensures ModelCalls(HandleGenerate(request, env).calls) == ModelCalls(ModelCallFor(request, env))
    ensures Recorded(HandleGenerate(request, env).calls) == Recorded(PersistenceFor(request, env))
  {
    var lookup, model, persist := MemoryLookup(request), ModelCallFor(request, env), PersistenceFor(request, env);
    GenerateCallOrder(request, env);
    MemoryLookupProjections(request);
    ProjectAppend(lookup + model, persist, FetchOf);
    ProjectAppend(lookup, model, FetchOf);
    ProjectAppend(lookup + model, persist, ModelCallOf);
    ProjectAppend(lookup, model, ModelCallOf);
    ProjectAppend(lookup + model, persist, RecordOf);
    ProjectAppend(lookup, model, RecordOf);
    if model != [] {
      ProjectSingleton(model[0], FetchOf);
      ProjectSingleton(model[0], RecordOf);
    }
    if persist != [] {
      ProjectSingleton(persist[0], FetchOf);
      ProjectSingleton(persist[0], ModelCallOf);
    }
  }

  /** The memory manager is consulted once, with the user and the prompt, for
      a user who brought no context of their own, and otherwise never: a
      caller's context is never replaced by one from memory. */
  lemma GenerateConsultsMemoryOnlyWithoutContext(request: GenerateRequest, env: GenerateEnv)
    ensures ContextFetches(HandleGenerate(request, env).calls) ==
      if UserGiven(request.userId) && request.conversationContext.None?
      then [(request.userId.value, request.prompt)] else []
  {
    GenerateProjections(request, env);
    MemoryLookupProjections(request);
  }

  /** The model is invoked exactly once, with the prompt, the request's
      influence and the resolved context (the caller's when given), unless
      resolving the context failed, in which case it is never invoked. */
  lemma GenerateInvokesModelOnce(request: GenerateRequest, env: GenerateEnv)
    ensures ModelCalls(HandleGenerate(request, env).calls) ==
      match ResolveContext(request, env.fetchContext)
      case Failure(_) => []
      case Success(context) => [(request.prompt, request.quantumInfluence, context)]
    ensures request.conversationContext.Some? ==>
      ModelCalls(HandleGenerate(request, env).calls) ==
        [(request.prompt, request.quantumInfluence, Some(ToDict(request.conversationContext.value)))]
  {
    GenerateProjections(request, env);
    var model := ModelCallFor(request, env);
    if model != [] {
      ProjectSingleton(model[0], ModelCallOf);
    }
  }

  /** The interactions `generate` persists: the one built from the request
      and the model's answer when there is a user and generation succeeded,
      none otherwise. */
  lemma GenerateRecordedInteractions(request: GenerateRequest, env: GenerateEnv)
    ensures Recorded(HandleGenerate(request, env).calls) ==
      if UserGiven(request.userId) && Generation(request, env).Success?
      then [InteractionFor(request, Generation(request, env).value)] else []
  {
    GenerateProjections(request, env);
    var persist := PersistenceFor(request, env);
    if persist != [] {
      ProjectSingleton(persist[0], RecordOf);
    }
  }

  /** Exactly one interaction is persisted for a user whose generation
      succeeded and none otherwise (so a failed generation records nothing);
      it carries the prompt, the response text, the request's influence as
      its seed, no cycle and zero energy and reward, and it holds the text
      the caller is answered with. */
  lemma GenerateRecordsOnce(request: GenerateRequest, env: GenerateEnv)
    ensures var o := HandleGenerate(request, env);
      |Recorded(o.calls)| == if UserGiven(request.userId) && Generation(request, env).Success? then 1 else 0
    ensures var o := HandleGenerate(request, env);
      Recorded(o.calls) != [] ==>
        var i := Recorded(o.calls)[0];
        && i.userId == request.userId.value && i.query == request.prompt
        && i.response == ResponseText(Generation(request, env).value)
        && i.cycleId.None? && i.energy == 0.0 && i.rewardScore == 0.0
        && i.quantumSeed == request.quantumInfluence
    ensures var o := HandleGenerate(request, env);
      o.result.Success? && UserGiven(request.userId) ==>
        Recorded(o.calls) != [] && Recorded(o.calls)[0].response == o.result.value.response
  {
    GenerateRecordedInteractions(request, env);
  }

  /** Persistence is the last call of a request and comes right after the
      model's: nothing is persisted before generation has answered. */
  lemma GeneratePersistsAfterGenerating(request: GenerateRequest, env: GenerateEnv)
    ensures var o := HandleGenerate(request, env);
      Recorded(o.calls) != [] ==>
        |o.calls| >= 2 && o.calls[|o.calls| - 1].AddInteraction? && o.calls[|o.calls| - 2].LlmGenerate?
  {
    GenerateRecordedInteractions(request, env);
  }

  /** Over a whole log of calls, one `generate` request adds at most one
      persisted interaction, and adds one exactly when it has a user and its
      generation succeeds. */
  lemma GenerateGrowsRecordsByAtMostOne(log: seq<Call>, request: GenerateRequest, env: GenerateEnv)
    ensures |Recorded(log + HandleGenerate(request, env).calls)| ==
      |Recorded(log)| + if UserGiven(request.userId) && Generation(request, env).Success? then 1 else 0
  {
    ProjectAppend(log, HandleGenerate(request, env).calls, RecordOf);
    GenerateRecordsOnce(request, env);
  }

  // ---------------------------------------------------------------------
  // POST /quantum/influence, POST /evolve, GET /evolution/cycle/{id}
  // ---------------------------------------------------------------------

  /** Influence and random value are both the drawn value, 0.5 when the
      service gives none; a draw in [0, 1] gives an influence in [0, 1]. */
  function QuantumInfluenceResponseOf(result: QuantumRandom): (r: QuantumInfluenceResponse)
    ensures r.influence == r.randomValue
    ensures r.influence == if result.value.Some? then result.value.value else DefaultRandomValue
    ensures (result.value.Some? ==> 0.0 <= result.value.value <= 1.0) ==> 0.0 <= r.influence <= 1.0
  {
    var value := result.value.GetOr(DefaultRandomValue);
    QuantumInfluenceResponse(value, value)
  }

  /** The evolve response: the trained weights' id only when the result holds
      a non-empty `model_training`, status `'completed'` and no contributors
      by default. */
  function EvolveResponseOf(result: EvolutionResult): (r: EvolveResponse)
    ensures r.loraWeightsId.Some? ==>
      result.modelTraining.Some? && result.modelTraining.value.NonEmpty() && result.modelTraining.value.weightId == r.loraWeightsId
    ensures result.modelTraining.Some? && result.modelTraining.value.NonEmpty() ==> r.loraWeightsId == result.modelTraining.value.weightId
    ensures r.status == if result.status.Some? then result.status.value else DefaultEvolveStatus
    ensures r.topContributors == if result.topContributors.Some? then result.topContributors.value else []
  {
    EvolveResponse(
      result.status.GetOr(DefaultEvolveStatus),
      if result.modelTraining.Some? && result.modelTraining.value.NonEmpty() then result.modelTraining.value.weightId else None,
      result.topContributors.GetOr([]))
  }

  /** A cycle that storage does not have (or has as an empty record) is a 404,
      not a 500; a storage failure is a 500; a found cycle is returned as is. */
  function CycleStatusOf(lookup: Result<Option<Record>, string>): (r: Result<Record, HttpError>)
    ensures r == Failure(NotFound) <==> lookup.Success? && (lookup.value.None? || lookup.value.value == map[])
    ensures r.Failure? && r.error.status == 500 <==> lookup.Failure?
    ensures r.Success? ==> lookup == Success(Some(r.value)) && r.value != map[]
  {
    match lookup
    case Failure(e) => Failure(ServerError(e))
    case Success(cycle) =>
      if cycle.None? || cycle.value == map[] then Failure(NotFound) else Success(cycle.value)
  }

  // ---------------------------------------------------------------------
  // Services and the lazily built singletons
  // ---------------------------------------------------------------------

  /** The configuration values the services are built from. */
  datatype Config = Config(
    ibmQuantumApiKey: string,
    ibmQuantumInstance: string,
    mistralApiKey: string,
    mistralAgentId: string,
    mode: string)

  class Storage {
    constructor () {}
  }

  class ObeliskLlm {
    const storage: Storage

    constructor (storage: Storage)
      ensures this.storage == storage
    {
      this.storage := storage;
    }
  }

  class IbmQuantumService {
    const apiKey: string
    const instance: string

    constructor (apiKey: string, instance: string)
      ensures this.apiKey == apiKey && this.instance == instance
    {
      this.apiKey := apiKey;
      this.instance := instance;
    }
  }

  class ObeliskMemoryManager {
    const storage: Storage
    const llm: ObeliskLlm
    const mistralApiKey: string
    const agentId: string
    const mode: string

    constructor (storage: Storage, llm: ObeliskLlm, mistralApiKey: string, agentId: string, mode: string)
      ensures this.storage == storage && this.llm == llm
      ensures this.mistralApiKey == mistralApiKey && this.agentId == agentId && this.mode == mode
    {
      this.storage := storage;
      this.llm := llm;
      this.mistralApiKey := mistralApiKey;
      this.agentId := agentId;
      this.mode := mode;
    }
  }

  datatype ServiceKind = StorageKind | LlmKind | QuantumKind | MemoryManagerKind

  predicate Distinct<T(==)>(s: seq<T>) {
    forall i, j :: 0 <= i < j < |s| ==> s[i] != s[j]
  }

  /** The module state of the routes: the four cached service instances, a
      ghost log of the services built, and a ghost log of the calls made to
      collaborators. */
  class ApiRoutes {
    const config: Config
    var storage: Option<Storage>
    var llm: Option<ObeliskLlm>
    var quantumService: Option<IbmQuantumService>
    var memoryManager: Option<ObeliskMemoryManager>
    ghost var built: seq<ServiceKind>
    ghost var calls: seq<Call>

    /** Each service is built at most once, is cached exactly when it was
        built, and the language model and the memory manager share the cached
        storage (and the memory manager the cached model). */
    ghost predicate Valid()
      reads this
    {
      && Distinct(built)
      && (StorageKind in built <==> storage.Some?)
      && (LlmKind in built <==> llm.Some?)
      && (QuantumKind in built <==> quantumService.Some?)
      && (MemoryManagerKind in built <==> memoryManager.Some?)
      && (llm.Some? ==> storage.Some? && llm.value.storage == storage.value)
      && (memoryManager.Some? ==>
            && storage.Some? && llm.Some?
            && memoryManager.value.storage == storage.value
            && memoryManager.value.llm == llm.value
            && memoryManager.value.mistralApiKey == config.mistralApiKey
            && memoryManager.value.agentId == config.mistralAgentId
            && memoryManager.value.mode == config.mode)
      && (quantumService.Some? ==>
            && quantumService.value.apiKey == config.ibmQuantumApiKey
            && quantumService.value.instance == config.ibmQuantumInstance)
    }

    /** No cached service is replaced or dropped, and the build log only
        grows: once built, a service is the one every later request uses. */
    twostate predicate CacheKept()
      reads this
    {
      && (old(storage).Some? ==> storage == old(storage))
      && (old(llm).Some? ==> llm == old(llm))
      && (old(quantumService).Some? ==> quantumService == old(quantumService))
      && (old(memoryManager).Some? ==> memoryManager == old(memoryManager))
      && old(built) <= built
    }

    constructor (config: Config)
      ensures Valid()
      ensures this.config == config
      ensures storage.None? && llm.None? && quantumService.None? && memoryManager.None?
      ensures built == [] && calls == []
    {
      this.config := config;
      storage, llm, quantumService, memoryManager := None, None, None, None;
      built, calls := [], [];
    }

    /** `get_storage`: built on the first call, the cached instance after. */
    method GetStorage() returns (s: Storage)
      requires Valid()
      modifies this
      ensures Valid()
      ensures CacheKept()
      ensures storage == Some(s)
      ensures old(storage).Some? ==> s == old(storage).value && built == old(built)
      ensures old(storage).None? ==> fresh(s) && built == old(built) + [StorageKind]
      ensures llm == old(llm) && quantumService == old(quantumService) && memoryManager == old(memoryManager)
      ensures calls == old(calls)
    {
      if storage.None? {
        var created := new Storage();
        storage := Some(created);
        built := built + [StorageKind];
      }
      s := storage.value;
    }

    /** `get_llm`: built once, with the cached storage. */
    method GetLlm() returns (l: ObeliskLlm)
      requires Valid()
      modifies this
      ensures Valid()
      ensures CacheKept()
      ensures llm == Some(l) && storage.Some? && l.storage == storage.value
      ensures old(llm).Some? ==> l == old(llm).value && storage == old(storage) && built == old(built)
      ensures old(llm).None? ==>
        && fresh(l)
        && (old(storage).Some? ==> storage == old(storage))
        && built == old(built) + (if old(storage).None? then [StorageKind] else []) + [LlmKind]
      ensures quantumService == old(quantumService) && memoryManager == old(memoryManager)
      ensures calls == old(calls)
    {
      if llm.None? {
        var s := GetStorage();
        var created := new ObeliskLlm(s);
        llm := Some(created);
        built := built + [LlmKind];
      }
      l := llm.value;
    }

    /** `get_quantum_service`: built once, from the configured key and instance. */
    method GetQuantumService() returns (q: IbmQuantumService)
      requires Valid()
      modifies this
      ensures Valid()
      ensures CacheKept()
      ensures quantumService == Some(q)
      ensures q.apiKey == config.ibmQuantumApiKey && q.instance == config.ibmQuantumInstance
      ensures old(quantumService).Some? ==> q == old(quantumService).value && built == old(built)
      ensures old(quantumService).None? ==> fresh(q) && built == old(built) + [QuantumKind]
      ensures storage == old(storage) && llm == old(llm) && memoryManager == old(memoryManager)
      ensures calls == old(calls)
    {
      if quantumService.None? {
        var created := new IbmQuantumService(config.ibmQuantumApiKey, config.ibmQuantumInstance);
        quantumService := Some(created);
        built := built + [QuantumKind];
      }
      q := quantumService.value;
    }

    /** `get_memory_manager`: built once, with the cached storage and model. */
    method GetMemoryManager() returns (m: ObeliskMemoryManager)
      requires Valid()
      modifies this
      ensures Valid()
      ensures CacheKept()
      ensures memoryManager == Some(m) && storage.Some? && llm.Some?
      ensures m.storage == storage.value && m.llm == llm.value
      ensures old(memoryManager).Some? ==>
        m == old(memoryManager).value && storage == old(storage) && llm == old(llm) && built == old(built)
      ensures old(memoryManager).None? ==>
        && fresh(m)
        && (old(storage).Some? ==> storage == old(storage))
        && (old(llm).Some? ==> llm == old(llm))
        && built == old(built)
                    + (if old(storage).None? then [StorageKind] else [])
                    + (if old(llm).None? then [LlmKind] else [])
                    + [MemoryManagerKind]
      ensures quantumService == old(quantumService)
      ensures calls == old(calls)
    {
      if memoryManager.None? {
        var s := GetStorage();
        var l := GetLlm();
        var created := new ObeliskMemoryManager(s, l, config.mistralApiKey, config.mistralAgentId, config.mode);
        memoryManager := Some(created);
        built := built + [MemoryManagerKind];
      }
      m := memoryManager.value;
    }

    /** The context step of `generate` (src/api/routes.py:150-159): the caller's context when there is one,
        otherwise (for a user) the memory manager's, converted to dict form. */
    method ResolveConversationContext(request: GenerateRequest, env: GenerateEnv)
      returns (context: Result<Option<ContextDict>, string>)
      modifies this`calls
      ensures context == ResolveContext(request, env.fetchContext)
      ensures calls == old(calls) + MemoryLookup(request)
    {
      var conversationContext := request.conversationContext;
      if UserGiven(request.userId) && conversationContext.None? {
        calls := calls + [FetchContext(request.userId.value, request.prompt)];
        var fetched := env.fetchContext(request.userId.value, request.prompt);
        if fetched.Failure? {
          return Failure(fetched.error);
        }
        conversationContext :=
          if fetched.value.Some? && fetched.value.value.NonEmpty() then Some(FromDict(fetched.value.value)) else None;
      }
      context := Success(if conversationContext.Some? then Some(ToDict(conversationContext.value)) else None);
    }

    /** The model call and persistence step of `generate`
        (src/api/routes.py:161-183). */
    method GenerateAndRecord(request: GenerateRequest, env: GenerateEnv, context: Option<ContextDict>)
      returns (r: Result<GenerateResponse, HttpError>)
      modifies this`calls
      ensures r == GenerateWithContext(request, env, context).result
      ensures calls == old(calls) + GenerateWithContext(request, env, context).calls
    {
      calls := calls + [LlmGenerate(request.prompt, request.quantumInfluence, context)];
      var result := env.llmGenerate(request.prompt, request.quantumInfluence, context);
      if result.Failure? {
        return Failure(ServerError(result.error));
      }
      if UserGiven(request.userId) {
        var interaction := InteractionFor(request, result.value);
        calls := calls + [AddInteraction(interaction)];
        var stored := env.addInteraction(interaction);
        if stored.Fail? {
          return Failure(ServerError(stored.error));
        }
      }
      r := Success(GenerateResponseOf(result.value));
    }

    /** The services `generate` obtains before doing anything else: the LLM
        and the memory manager (and, through them, the storage). */
    method GenerationServices() returns (model: ObeliskLlm, manager: ObeliskMemoryManager)
      requires Valid()
      modifies this
      ensures Valid()
      ensures CacheKept()
      ensures llm == Some(model) && memoryManager == Some(manager) && storage.Some?
      ensures old(memoryManager).Some? ==>
        storage == old(storage) && llm == old(llm) && memoryManager == old(memoryManager) && built == old(built)
      ensures quantumService == old(quantumService)
      ensures calls == old(calls)
    {
      model := GetLlm();
      manager := GetMemoryManager();
    }

    /** `POST /generate`. */
    method Generate(request: GenerateRequest, env: GenerateEnv) returns (r: Result<GenerateResponse, HttpError>)
      requires Valid()
      modifies this
      ensures Valid()
      ensures CacheKept()
      ensures r == HandleGenerate(request, env).result
      ensures calls == old(calls) + HandleGenerate(request, env).calls
      ensures storage.Some? && llm.Some? && memoryManager.Some?
      ensures old(memoryManager).Some? ==>
        storage == old(storage) && llm == old(llm) && memoryManager == old(memoryManager) && built == old(built)
      ensures quantumService == old(quantumService)
    {
      var model, manager := GenerationServices();
      var context := ResolveConversationContext(request, env);
      if context.Failure? {
        return Failure(ServerError(context.error));
      }
      r := GenerateAndRecord(request, env, context.value);
    }

    /** `POST /quantum/influence`: one draw of 2 qubits over 128 shots. */
    method GetQuantumInfluence(draw: (nat, nat) -> Result<QuantumRandom, string>)
      returns (r: Result<QuantumInfluenceResponse, HttpError>)
      requires Valid()
      modifies this
      ensures Valid()
      ensures CacheKept()
      ensures r == match draw(QuantumQubits, QuantumShots)
                   case Failure(e) => Failure(ServerError(e))
                   case Success(v) => Success(QuantumInfluenceResponseOf(v))
      ensures quantumService.Some? && storage == old(storage) && llm == old(llm) && memoryManager == old(memoryManager)
      ensures calls == old(calls) + [GetQuantumRandom(quantumService.value, QuantumQubits, QuantumShots)]
    {
      var service := GetQuantumService();
      calls := calls + [GetQuantumRandom(service, QuantumQubits, QuantumShots)];
      var result := draw(QuantumQubits, QuantumShots);
      if result.Failure? {
        r := Failure(ServerError(result.error));
      } else {
        r := Success(QuantumInfluenceResponseOf(result.value));
      }
    }

    /** `POST /evolve`: the evolution processor runs with the cached storage and model. */
    method Evolve(request: EvolveRequest, process: (string, bool) -> Result<EvolutionResult, string>)
      returns (r: Result<EvolveResponse, HttpError>)
      requires Valid()
      modifies this
      ensures Valid()
      ensures CacheKept()
      ensures r == match process(request.cycleId, request.fineTune)
                   case Failure(e) => Failure(ServerError(e))
                   case Success(v) => Success(EvolveResponseOf(v))
      ensures storage.Some? && llm.Some? && quantumService == old(quantumService) && memoryManager == old(memoryManager)
      ensures calls == old(calls) + [ProcessEvolutionCycle(request.cycleId, storage.value, llm.value, request.fineTune)]
    {
      var s := GetStorage();
      var model := GetLlm();
      calls := calls + [ProcessEvolutionCycle(request.cycleId, s, model, request.fineTune)];
      var result := process(request.cycleId, request.fineTune);
      if result.Failure? {
        r := Failure(ServerError(result.error));
      } else {
        r := Success(EvolveResponseOf(result.value));
      }
    }

    /** `GET /evolution/cycle/{cycle_id}`. */
    method GetCycleStatus(cycleId: string, lookup: string -> Result<Option<Record>, string>)
      returns (r: Result<Record, HttpError>)
      requires Valid()
      modifies this
      ensures Valid()
      ensures CacheKept()
      ensures r == CycleStatusOf(lookup(cycleId))
      ensures storage.Some? && llm == old(llm) && quantumService == old(quantumService) && memoryManager == old(memoryManager)
      ensures calls == old(calls) + [GetEvolutionCycle(storage.value, cycleId)]
    {
      var s := GetStorage();
      calls := calls + [GetEvolutionCycle(s, cycleId)];
      r := CycleStatusOf(lookup(cycleId));
    }

    /** `GET /memory/{user_id}`: the memory manager's context for an empty query. */
    method GetMemory(userId: string, fetch: (string, string) -> Result<Option<ContextDict>, string>)
      returns (r: Result<MemoryView, HttpError>)
      requires Valid()
      modifies this
      ensures Valid()
      ensures CacheKept()
      ensures r == match fetch(userId, "")
                   case Failure(e) => Failure(ServerError(e))
                   case Success(context) => Success(MemoryView(userId, context))
      ensures calls == old(calls) + [FetchContext(userId, "")]
      ensures memoryManager.Some? && quantumService == old(quantumService)
    {
      var manager := GetMemoryManager();
      calls := calls + [FetchContext(userId, "")];
      var context := fetch(userId, "");
      if context.Failure? {
        r := Failure(ServerError(context.error));
      } else {
        r := Success(MemoryView(userId, context.value));
      }
    }

    /** `POST /memory/{user_id}`: the interaction is handed to the memory
        manager with its own defaults for the other fields. */
    method SaveUserInteraction(userId: string, query: string, response: string, save: (string, string, string) -> Outcome<string>)
      returns (r: Result<string, HttpError>)
      requires Valid()
      modifies this
      ensures Valid()
      ensures CacheKept()
      ensures r == match save(userId, query, response)
                   case Fail(e) => Failure(ServerError(e))
                   case Pass => Success("saved")
      ensures calls == old(calls) + [SaveInteraction(userId, query, response)]
      ensures memoryManager.Some? && quantumService == old(quantumService)
    {
      var manager := GetMemoryManager();
      calls := calls + [SaveInteraction(userId, query, response)];
      var saved := save(userId, query, response);
      if saved.Fail? {
        r := Failure(ServerError(saved.error));
      } else {
        r := Success("saved");
      }
    }
  }
}
