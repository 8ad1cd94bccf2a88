# Obelisk Core: token splitting and request orchestration

This project models the two parts of Obelisk Core that hold real logic, and proves properties of them in Dafny.

- **The thinking/content token splitter** (`split_thinking_tokens`). A Qwen3 model emits its reasoning, then the `</think>` token (id 151668), then its answer. The splitter cuts the generated token ids at the **last** `</think>`. It returns `(thinking, content)`, and the sentinel is in neither. Module `ThinkingTokens`, file `thinking_tokens.dfy`.
- **The HTTP route handlers with FastAPI and pydantic taken away** (`src/api/routes.py`). Module `Routes`, file `routes.dfy`. It covers:
  - the request and response models, and `ConversationContext.to_dict` with its inverse (the model's construction from a dict);
  - how `generate` decides which conversation context the language model receives, when it persists an interaction, and in what order;
  - how the generate, quantum-influence and evolve results become responses, with their defaults;
  - the 404 returned for a missing evolution cycle;
  - the four lazily built service singletons (`get_storage`, `get_llm`, `get_quantum_service`, `get_memory_manager`).

The module globals of `routes.py` are the class `Routes.ApiRoutes`. Its getters build a service on first use and return the cached instance after that. Two ghost logs record what happens:
- `built` records which services have been constructed. `Valid()` requires it to have no repeats, so each service is built at most once. Every getter and handler promises `CacheKept()`: a cached service is never replaced and `built` only grows, so later requests reuse the same instances.
- `calls` records every call the handlers make to a collaborator, oldest first.

The collaborators are the memory manager, the language model, the quantum service, the evolution processor and storage lookups. Their code is not part of this model, so each handler receives them as function parameters. A collaborator that raises an exception is a `Failure(message)`, and the handler turns it into `HttpError(500, message)`. Each handler's contract ties its answer and its new log entries to a pure function (`HandleGenerate`, `CycleStatusOf`, …). The properties are proved about those functions.

File `wrappers.dfy` holds the Option, Result and Outcome datatypes.

Three modelling choices:
- **Dict truthiness.** Python treats a dict as false when it is empty. The model tracks a dict's missing keys as `None`, and counts the keys a model class has no field for (`extraKeys`), so "empty" can be computed.
- **A caller's context is always truthy.** A pydantic model instance is always truthy, so `not conversation_context` holds exactly when no context was supplied.
- **User ids.** A `user_id` counts only when it is present and not the empty string (`UserGiven`).

**Persistence failures revoke the response.** One would expect a failed persistence after a successful generation not to revoke the response. In the code, `add_interaction` runs inside the same `try` as the generation (src/api/routes.py:146-185), so its exception becomes a 500. The model follows the code: `HandleGenerate` fails when `addInteraction` fails.

**Assumption for input without a sentinel.** The repository's tests never give the splitter an input with no `</think>`, and the splitter's own file is not part of this model. `SplitThinkingTokens` returns `([], tokens)` for that input: no sentinel means no thinking, and everything is content. Only the second `ensures` of `SplitThinkingTokens` depends on this assumption.

## Model

| member | source | states |
|---|---|---|
| `ThinkingTokens.LastIndexOf` | tests/test_thinking_token_split.py:53-61 | the index found holds the sentinel and no later position does; there is none exactly when the sentinel is absent |
| `ThinkingTokens.SplitThinkingTokens` | tests/test_thinking_token_split.py:14-71 | whenever the sentinel occurs, thinking + [sentinel] + content rebuilds the input and content holds no sentinel; without a sentinel (assumed) everything is content |
| `ThinkingTokens.SplitIsUnique` | tests/test_thinking_token_split.py:53-61 | any decomposition thinking + [sentinel] + content with sentinel-free content is the split, so the split is at the last sentinel and content is the longest sentinel-free suffix |
| `ThinkingTokens.SplitKeepsEarlierSentinels` | tests/test_thinking_token_split.py:53-61 | thinking keeps every sentinel except the last one (its sentinel count is the input's minus one) |
| `ThinkingTokens.SplitInMiddle` | tests/test_thinking_token_split.py:23-31 | [1,2,3,E,4,5] splits into [1,2,3] and [4,5] |
| `ThinkingTokens.SplitAtEnd` | tests/test_thinking_token_split.py:33-41 | a final sentinel leaves content empty: [1,2,3,E] gives [1,2,3] and [] |
| `ThinkingTokens.SplitAtStart` | tests/test_thinking_token_split.py:43-51 | a first sentinel leaves thinking empty: [E,1,2,3] gives [] and [1,2,3] |
| `ThinkingTokens.SplitAtLastOfSeveral` | tests/test_thinking_token_split.py:53-61 | [1,E,2,E,3] splits at the last sentinel: [1,E,2] and [3] |
| `ThinkingTokens.SplitSentinelOnly` | tests/test_thinking_token_split.py:63-71 | [E] gives two empty segments |
| `Routes.ToDict` | src/api/routes.py:47-52 | the dict form keeps every message in order with its role and content, copies the memories verbatim, and is never empty |
| `Routes.FromDict` | src/api/routes.py:36-45 | building a context from a dict keeps the messages in order; a missing key gives no messages or empty memories |
| `Routes.FromDictOfToDict` | src/api/routes.py:47-52 | a context converted to a dict and back is unchanged |
| `Routes.ToDictOfFromDict` | src/api/routes.py:36-52 | a dict with exactly the two known keys converted to a context and back is unchanged |
| `Routes.ValidateGenerateRequest` | src/api/routes.py:102-118 | a request is accepted exactly when its influence is absent or in [0, 1]; the influence defaults to 0.7 and every other field is kept |
| `Routes.GenerateResponseOf` | src/api/routes.py:179-183 | the response text is the result's or `''`, the source is the result's or `'obelisk_llm'`, and `tokens_used` is always unset |
| `Routes.ResolveContext` | src/api/routes.py:150-159 | a caller's context reaches the model as its dict form whatever memory holds; without a user there is no context; a user's empty or missing memory context gives no context; a failed look-up fails |
| `Routes.HandleGenerate` | src/api/routes.py:143-185 | every failure is a 500; the request succeeds exactly when generation and, for a user, persistence succeed, and it then answers with the generation's mapped response |
| `Routes.GenerateCallOrder` | src/api/routes.py:150-177 | a request's calls are, in this order, the memory look-up (if any), the model call (once the context resolved) and the persistence (for a user whose generation succeeded) |
| `Routes.GenerateProjections` | src/api/routes.py:150-177 | the look-ups come only from context resolution, the model calls only from generation, the persisted interactions only from persistence |
| `Routes.GenerateConsultsMemoryOnlyWithoutContext` | src/api/routes.py:150-156 | memory is looked up once, with the user id and prompt, exactly when a user is given and no context was supplied |
| `Routes.GenerateInvokesModelOnce` | src/api/routes.py:151-165 | the model is invoked once with the prompt, the influence and the resolved context (the caller's own when supplied), and never when resolving the context failed |
| `Routes.GenerateRecordedInteractions` | src/api/routes.py:167-177 | the interactions persisted by one request are exactly the one built from the request and the generation's result when a user is given and generation succeeded, and none otherwise |
| `Routes.GenerateRecordsOnce` | src/api/routes.py:167-177 | one interaction is persisted exactly when a user is given and generation succeeded, so a failed generation records nothing. It has cycle None, energy 0.0, reward 0.0, the influence as seed and the response text, and matches the text returned |
| `Routes.GeneratePersistsAfterGenerating` | src/api/routes.py:161-177 | when an interaction is persisted, it is the last call and comes right after the model call |
| `Routes.GenerateGrowsRecordsByAtMostOne` | src/api/routes.py:167-177 | appended to any log, one request adds one persisted interaction exactly when it has a user and generation succeeded, and none otherwise |
| `Routes.ValidateEvolveRequest` | src/api/routes.py:132-134 | the cycle id is kept, and `fine_tune` is the given flag or `true` when omitted |
| `Routes.QuantumInfluenceResponseOf` | src/api/routes.py:211-215 | influence and random value always agree, default to 0.5, and stay in [0, 1] when the drawn value is |
| `Routes.EvolveResponseOf` | src/api/routes.py:237-241 | the weights id is present only for a non-empty `model_training` and is then its `weight_id`; status defaults to `'completed'`, contributors to `[]` |
| `Routes.CycleStatusOf` | src/api/routes.py:249-257 | a missing or empty cycle is exactly the 404 "Cycle not found", a storage failure is exactly a 500, and a found cycle is returned as is |
| `Routes.ApiRoutes.constructor` | src/api/routes.py:55-59 | no service is built yet and nothing has been called |
| `Routes.ApiRoutes.GetStorage` | src/api/routes.py:61-66 | storage is built on the first call only; later calls return the cached instance and build nothing; keeps every cached service and only grows `built` (`CacheKept`) |
| `Routes.ApiRoutes.GetLlm` | src/api/routes.py:68-74 | the model is built once, with the cached storage (building that first if needed); later calls return the cached instance; keeps every cached service and only grows `built` (`CacheKept`) |
| `Routes.ApiRoutes.GetQuantumService` | src/api/routes.py:76-85 | the quantum service is built once, from the configured key and instance, and cached; keeps every cached service and only grows `built` (`CacheKept`) |
| `Routes.ApiRoutes.GetMemoryManager` | src/api/routes.py:87-99 | the memory manager is built once, with the cached storage and model (built in that order if needed) and the configured Mistral key, agent id and mode; keeps every cached service and only grows `built` (`CacheKept`) |
| `Routes.ApiRoutes.ResolveConversationContext` | src/api/routes.py:150-159 | returns the context `ResolveContext` specifies and logs exactly the memory look-up `generate` makes |
| `Routes.ApiRoutes.GenerationServices` | src/api/routes.py:147-148 | the LLM and the memory manager exist afterwards; already-built services are reused unchanged, the quantum service and the log are untouched; keeps every cached service and only grows `built` (`CacheKept`) |
| `Routes.ApiRoutes.GenerateAndRecord` | src/api/routes.py:161-183 | answers as `GenerateWithContext` specifies (model failure or persistence failure is a 500) and logs the model call and, for a user, the persistence |
| `Routes.ApiRoutes.Generate` | src/api/routes.py:143-185 | builds the model and memory manager if needed, answers as `HandleGenerate` and appends exactly its calls to the log; keeps every cached service and only grows `built` (`CacheKept`) |
| `Routes.ApiRoutes.GetQuantumInfluence` | src/api/routes.py:206-217 | draws once with 2 qubits and 128 shots from the cached service, and the log names that instance; answers with the mapped response or a 500; keeps every cached service and only grows `built` (`CacheKept`) |
| `Routes.ApiRoutes.Evolve` | src/api/routes.py:221-243 | runs the evolution processor once with the request's cycle id, the cached storage and model, and the fine-tune flag; answers with the mapped response or a 500; keeps every cached service and only grows `built` (`CacheKept`) |
| `Routes.ApiRoutes.GetCycleStatus` | src/api/routes.py:245-257 | looks the cycle up once in the cached storage (named in the log) and answers as `CycleStatusOf`; keeps every cached service and only grows `built` (`CacheKept`) |
| `Routes.ApiRoutes.GetMemory` | src/api/routes.py:261-273 | asks the memory manager for the user's context with an empty query and returns it with the user id, or a 500; keeps every cached service and only grows `built` (`CacheKept`) |
| `Routes.ApiRoutes.SaveUserInteraction` | src/api/routes.py:275-283 | hands the user, query and response to the memory manager once and answers `"saved"`, or a 500; keeps every cached service and only grows `built` (`CacheKept`) |

## Left out

- Config loading through `importlib` and its `FileNotFoundError`/`ImportError` checks (src/api/routes.py:10-24, src/api/server.py:9-14): module-import plumbing.
- The FastAPI app, CORS, router mounting, the startup hook, `uvicorn` and both health endpoints (src/api/server.py, src/api/routes.py:187-202): transport only.
- `ServiceContainer` (src/core/container.py): a plain record whose only logic stamps the wall-clock time.
- The collaborators' own behaviour: the language model, the quantum service, the memory manager's ranking and storage, and `process_evolution_cycle`. Their code is not part of this model, so the handlers take them as function parameters. No contributor scoring and no cycle state machine is modelled.
- The services' construction never fails in the model. In the source, an exception from `Config.get_storage()` or a service constructor would also surface as a 500.
- Pydantic's validation of nested data is not modelled: a message dict without `role`, or an evolve `status` that is not a string. The only request validation modelled is the range of `quantum_influence`. The validation-error response itself is FastAPI's and is modelled only as a rejected request.
- `async`/`await` and concurrent requests: the model is sequential.
- Floats are `real`, and no arithmetic is done on them.
- JSON objects passed through untouched (top contributors, a stored cycle) are `map<string, string>`. Their values are opaque in the source, and the model never looks at them beyond "empty or not".
- `HandleGenerate`, `GenerateResponseOf`, `GeneratePersistsAfterGenerating`: a model answer whose `response` or `source` key is present but `None` is not modelled. In the source `result.get(...)` then yields `None`, and building `GenerateResponse` raises after `add_interaction` has run (src/api/routes.py:167-183). That request is a 500 with the interaction already persisted, and there persistence is not the last thing that can fail. `LlmResult` only has "missing" and "a string", so in the model building the response never fails.
- `QuantumInfluenceResponseOf`: a quantum result whose `value` key is present but `None` is not modelled. In the source `QuantumInfluenceResponse` would then reject it with a 500 (src/api/routes.py:211-215); in the model `value` is only missing or a number.
- The log entries of `generate`, `GET /memory` and `POST /memory` do not name the LLM or memory-manager instance they are made on. The handlers promise that these services are cached, and `Valid()` ties the memory manager to the cached storage and model. Only the quantum, evolve and cycle-status entries record their instances.
- `ThinkingTokens.SplitThinkingTokens`: its result for an input without a sentinel is an assumption, because the tests do not constrain that case (see above).
