# Chat-model registry, rule matcher and message compressor in Dafny

This project models the core of a small TypeScript library. The library picks and builds chat models for LLM applications.

It has three parts that carry real logic:

- **The rule matcher** (`create_matcher`). It compiles a rule `{ test, include, exclude }` into a predicate over a query string and a context.
  - Falsy conditions are dropped.
  - Strings and regular expressions become pattern tests.
  - `test`, when present, must hold as well.
  - `include` passes when ANY of its conditions holds.
  - `exclude` rejects only when ALL of its conditions hold.
  - A condition of any other kind makes compilation throw.
- **The provider registry** (`ModelRegistryFactory` and its subclass `ChatModelFactoryRegistry`). It is an ordered map from names to registration entries.
  - `create_llm` finds an entry by provider key, else by searching a model name: an exact key first, then the first entry in insertion order whose matcher accepts.
  - It calls the entry's creator with the entry's options overridden by the caller's.
  - `build` falls back to the default OpenAI model.
  - `register`, `append`, `remove` and `reset` change the map.
- **The conversation compressor** (`ChatMessageCompressor`). It keeps a leading system turn and the final prompt. Between them it keeps the newest (user, reply) pairs whose probe still fits a token budget.
  - A probe is the accepted turns, the candidate pair, the prompt and the system turn, rendered with role labels and counted by the tokenizer.

Also modelled is the role and text extraction for chat turns (`chat_message_to_openai_role`, `chat_message_to_text`).

Modules, one per source file:

| file | module | models |
|---|---|---|
| `wrappers.dfy` | `Wrappers` | `Option` and `Result` (with `:-`) |
| `values.dfy` | `Values` | JavaScript values, option bags, contexts, model handles |
| `chat_message.dfy` | `ChatMessage` | `src/helpers/chat_message.ts` |
| `matcher.dfy` | `Matcher` | `src/helpers/create_matcher.ts` |
| `registry.dfy` | `Registry` | `src/factories/model_registry_factory.ts` and `src/factories/chat_model_registry_factory.ts` |
| `compressor.dfy` | `Compressor` | `src/factories/chat_message_compressor.ts` |

External code is passed in as function values:

| external code | how it appears in the model |
|---|---|
| the regular-expression engine | `RegexEngine`: pattern source, flags and value to bool |
| `create_chat_model_engine(key)` | `ChatEngine` |
| `create_openai_chat_model` | `OpenAIConstructor` |
| `get_encoding(...).calculate_tokens` | `GetEncoding` |

These functions are assumed to be pure and total: the same arguments always give the same result, and every call returns. Beyond that, nothing is assumed about what they compute. `ChatEngine`'s signature is itself an assumption (see "## Left out").

How the source's state becomes Dafny state:

- **The registry** is a class. It has two fields:
  - `keys`: the map's keys in insertion order, without duplicates;
  - `entries`: key to entry.

  Its methods reassign these fields. `Map.set` on an existing key keeps the key's position, and a new key is appended.
- **The compressor** is a class whose settings are constant fields. In the source they are public, writable fields (see "## Left out").
  - `compress` copies the caller's turns, pops the prompt, and then runs the generator and the `for ... of` loop as one `while` loop.
  - It is proved equal to the function `CompressSpec`. That function, and every lemma about it, holds for any token count and any budget; the compressor instantiates them with its `calculate` and its `max_tokens`.
  - `calculate` reads only the encoder and the two labels. Because the model keeps these fixed after construction, `calculate` is a constant function field set by the constructor.
  - The method has no `modifies` clause, so the caller's array is never changed.

The model follows the code where it departs from what one would expect of a compressor.

- One reply can be reused. The held reply is never cleared, so a reply turn can be paired with several earlier user turns.
- The output can therefore be longer than the input, and it need not be a contiguous slice of it. `ReusedReplyExample` exhibits this, so no length bound or contiguity claim is made.
- An input that holds only a system turn yields `[system, undefined]`. This is modelled by the `promptMissing` flag.
- Compressing an output again gives the same output (`Idempotent`), whatever the token counts, with one exception. If the output is a lone system-role turn, compressing it again yields that turn and `undefined`. For example, [user, system-role prompt] compresses to [prompt] (`NotIdempotentEdge`). The model follows the code, so idempotence is stated without that case.

## Model

| member | source | states |
|---|---|---|
| ChatMessage.ChatMessageToOpenAIRole | src/helpers/chat_message.ts:7-13 | a plain message's role is its `role` field unchanged; a LangChain message has the role its mapping gives |
| ChatMessage.FindTextPart | src/helpers/chat_message.ts:16-20 | `find` finds nothing iff no part has type "text"; otherwise it returns the least index of a text part |
| ChatMessage.ChatMessageToText | src/helpers/chat_message.ts:15-24 | string content is returned unchanged; absent content gives ""; list content gives the text of the first "text" part, ignoring later ones, or "" when there is none |
| Matcher.Falsy | src/helpers/create_matcher.ts:91-92 | the conditions `!condition` skips: an absent condition (`false`, `null`, `undefined`) and the empty string; FalsyConditionsAreDropped and EmptyRuleMatchesEverything state what dropping them does |
| Matcher.Holds | src/helpers/create_matcher.ts:97-104 | a compiled predicate holds when the regular-expression engine accepts the value for the predicate's source and flags, or when the caller's function returns true for the value and context; NormalizeMatchCondition states which predicate each condition becomes |
| Matcher.SomeHolds | src/helpers/create_matcher.ts:59 | `matches.some(...)`, checked from the first predicate on; SomeIsExists states that it holds iff one predicate holds |
| Matcher.EveryHolds | src/helpers/create_matcher.ts:64 | `matches.every(...)`, checked from the first predicate on; EveryIsForall states that it holds iff each predicate holds |
| Matcher.NormalizeMatchCondition | src/helpers/create_matcher.ts:88-107 | fails iff the condition is of an invalid kind; gives no predicate iff the condition is falsy; a non-empty string becomes a pattern test without flags; a RegExp is tested with its own source and flags; a function is used as the predicate itself |
| Matcher.NormalizeList | src/helpers/create_matcher.ts:73-80 | fails iff some condition is invalid; keeps at most one predicate per condition; an all-falsy list gives none, and a list with a truthy condition gives at least one |
| Matcher.NormalizeListAppend | src/helpers/create_matcher.ts:74-80 | a concatenation compiles iff both halves do, and then to the first half's predicates followed by the second half's, so order is kept and each condition contributes on its own |
| Matcher.KeptMembers | src/helpers/create_matcher.ts:74-80 | a predicate is in the compiled list iff some condition of the list compiles to it, so exactly the truthy conditions contribute |
| Matcher.MixedListKeepsTruthy | src/helpers/create_matcher.ts:74-92 | `[null, "^a", ""]` compiles exactly like the single condition `"^a"`, to one flagless pattern test |
| Matcher.NormalizeMatchRules | src/helpers/create_matcher.ts:68-86 | a single condition normalises exactly as a one-element list |
| Matcher.SomeIsExists | src/helpers/create_matcher.ts:57-60 | `some` over the predicates holds iff one of them holds |
| Matcher.EveryIsForall | src/helpers/create_matcher.ts:63-65 | `every` over the predicates holds iff each of them holds |
| Matcher.CreateAssertPredicate | src/helpers/create_matcher.ts:51-66 | an empty list accepts everything; an include list accepts iff some predicate holds; an exclude list accepts iff some predicate fails |
| Matcher.IsMatch | src/helpers/create_matcher.ts:36-48 | a compiled rule matches iff the test (if any) holds, the include list is empty or one include holds, and the exclude list is empty or one exclude fails |
| Matcher.CreateMatcher | src/helpers/create_matcher.ts:22-34 | compilation fails iff the test, include or exclude holds an invalid condition; otherwise the test, include and exclude are their normalisations |
| Matcher.EmptyRuleMatchesEverything | src/helpers/create_matcher.ts:44-92 | a rule whose test, include and exclude are absent or falsy compiles and matches every value in every context |
| Matcher.FalsyConditionsAreDropped | src/helpers/create_matcher.ts:71-92 | a list of falsy conditions compiles to no predicates, like an absent condition |
| Matcher.IncludeIsAny | src/helpers/create_matcher.ts:57-60 | with an include list of valid conditions, at least one of them truthy, a value matches iff one truthy condition, compiled, holds; falsy ones play no part |
| Matcher.ExcludeNeedsAll | src/helpers/create_matcher.ts:63-65 | with an exclude list of valid conditions, at least one of them truthy, a value is rejected iff every truthy condition, compiled, holds |
| Matcher.CompiledListHolds | src/helpers/create_matcher.ts:57-80 | some compiled predicate of a valid list gives a given outcome iff some truthy condition of the list, compiled, gives it |
| Matcher.KeptAll | src/helpers/create_matcher.ts:74-80 | a list of valid truthy conditions compiles to one predicate per condition, in order |
| Matcher.AddingConditionKeepsMatch | src/helpers/create_matcher.ts:57-65 | inserting a predicate anywhere in a non-empty include or exclude list never turns a match into a non-match |
| Matcher.OneFailingExcludeAdmits | src/helpers/create_matcher.ts:63-65 | with excludes [a, b] where a holds and b fails, the value matches; with [a, a] it is rejected |
| Registry.CreateLlmEngine | src/factories/chat_model_registry_factory.ts:86-90 | the engine is keyed by the provider when it is a non-empty string, else by the name |
| Registry.ResolveLlmEngine | src/factories/model_registry_factory.ts:93-106 | a fixed `llm` wins, then a `create_llm` function, then the engine keyed by provider or name |
| Registry.DefaultTest | src/factories/model_registry_factory.ts:116 | the test is the entry's own test when truthy, else its provider when a non-empty string, else its name; it is falsy only when all three are |
| Registry.ResolveModelMatcher | src/factories/model_registry_factory.ts:112-120 | the matcher's test is the entry's own test, else its provider, else its name as a pattern; include and exclude are the entry's; it fails iff one of them is invalid |
| Registry.ResolveRegistrationInformation | src/factories/model_registry_factory.ts:78-91 | the entry keeps the name, defaults its options to `{}`, takes the resolved matcher and creator, and fails exactly when the matcher fails |
| Registry.ResolveAll | src/factories/model_registry_factory.ts:9-16 | resolving all descriptors fails iff one fails; otherwise entry i is descriptor i resolved |
| Registry.Merge | src/factories/model_registry_factory.ts:34 | the merged options have both key sets; the caller's keys win, and entry keys the caller lacks are kept |
| Registry.Apply | src/factories/model_registry_factory.ts:96-105 | a fixed instance ignores options and context; a custom function and the engine receive the options and the context |
| Registry.KeysOf | src/factories/model_registry_factory.ts:10-15 | the keys of `new Map(entries.map(...))`, as successive `set`s: first insertions keep their position; MapOfEntriesWellFormed and the constructor state that they are distinct and are exactly the map's keys |
| Registry.EntriesOf | src/factories/model_registry_factory.ts:10-15 | the values of that map, the last entry of each name winning; MapOfEntriesWellFormed states that every name is a key |
| Registry.Accepts | src/factories/model_registry_factory.ts:49-52 | an entry accepts a query when its matcher is a function and that matcher matches the query in the context; FirstMatchFrom and SearchFindsFirstAccepting state how `search` uses it |
| Registry.SetKey | src/factories/model_registry_factory.ts:66-68 | `set` on an existing key keeps the key order; a new key is appended; keys stay distinct |
| Registry.DeleteKey | src/factories/model_registry_factory.ts:70-72 | `delete` removes only that key and keeps the others in order; an absent key changes nothing |
| Registry.SetThenDeleteKey | src/factories/model_registry_factory.ts:66-72 | setting a new key and then deleting it gives back the original key order |
| Registry.MapOfEntriesWellFormed | src/factories/model_registry_factory.ts:9-16 | a map built by successive `set`s has distinct keys that are exactly its entries' keys, and contains every name |
| Registry.FirstMatchFrom | src/factories/model_registry_factory.ts:48-55 | the scan finds nothing iff no entry accepts; otherwise it finds the first accepting entry in insertion order |
| Registry.SearchSpec | src/factories/model_registry_factory.ts:41-56 | what `search` returns: the entry under the query itself, else the first accepting entry; its properties are stated by SearchFindsFirstAccepting |
| Registry.OptionString | src/factories/model_registry_factory.ts:24-30 | `options.provider` is used as a key, and `options.model` as a query, iff it is a non-empty string, and then that string is used |
| Registry.Lookup | src/factories/model_registry_factory.ts:22-32 | the entry `create_llm` picks is always a registered entry, and there is none when neither a provider nor a model is given |
| Registry.ResolveSpec | src/factories/model_registry_factory.ts:18-35 | what `create_llm` returns: the picked entry's creator applied to the merged options, or undefined; CreateLlm states its cases |
| Registry.EmptyRegistryResolvesNothing | src/factories/model_registry_factory.ts:24-32 | with an empty map `create_llm` returns undefined for every input |
| Registry.ChatModelFactoryRegistry.constructor | src/factories/model_registry_factory.ts:9-16 | the map holds the resolved entries in order, the last of each name winning, and is well formed |
| Registry.ChatModelFactoryRegistry.Create | src/factories/model_registry_factory.ts:9-16 | construction throws iff some descriptor has an invalid rule; otherwise the new registry holds all descriptors resolved |
| Registry.ChatModelFactoryRegistry.Search | src/factories/model_registry_factory.ts:41-56 | the early-return scan over the map returns exactly `SearchSpec`: the exact key, else the first accepting entry |
| Registry.SearchFindsFirstAccepting | src/factories/model_registry_factory.ts:41-56 | an exact key wins whatever the matchers say; otherwise search finds the first entry in insertion order whose matcher accepts, or nothing when none does |
| Registry.ChatModelFactoryRegistry.SearchWithDefaultContext | src/factories/chat_model_registry_factory.ts:79-84 | the chat registry's search is the base search with context `{}` |
| Registry.ChatModelFactoryRegistry.CreateLlm | src/factories/model_registry_factory.ts:18-35 | a registered provider key is used first; otherwise a model name is searched; the chosen entry's creator gets the merged options; if both miss the result is undefined |
| Registry.ChatModelFactoryRegistry.Build | src/factories/chat_model_registry_factory.ts:54-66 | build returns the resolved model when there is one, else the OpenAI model built from the caller's options alone |
| Registry.ChatModelFactoryRegistry.Append | src/factories/model_registry_factory.ts:66-68 | the entry is stored under its name; an existing key keeps its position; the map stays well formed |
| Registry.ChatModelFactoryRegistry.Register | src/factories/model_registry_factory.ts:58-64 | reports a duplicate name and then replaces it (last write wins, same position); an invalid rule throws and changes nothing |
| Registry.ChatModelFactoryRegistry.Remove | src/factories/model_registry_factory.ts:70-72 | only the named key leaves; absent names change nothing |
| Registry.ChatModelFactoryRegistry.Reset | src/factories/model_registry_factory.ts:74-76 | the map is emptied, after which `create_llm` returns undefined for every input |
| Registry.RegisterThenRemove | src/factories/model_registry_factory.ts:58-72 | registering a name that is not present and then removing it restores the keys, their order and the entries, whether or not the rule was valid |
| Registry.TongyiResolvesByProvider | src/factories/chat_model_registry_factory.ts:31-44 | with the documented "tongyi" entry, provider "tongyi" resolves to the tongyi engine |
| Registry.TongyiResolvesByModel | src/factories/chat_model_registry_factory.ts:31-48 | model "baichuan-7b-v1", which the entry's pattern accepts, resolves to the tongyi engine |
| Registry.TongyiMissesOtherModels | src/factories/chat_model_registry_factory.ts:31-52 | model "llama2-13b-chat-v2", which the pattern rejects, resolves to nothing |
| Registry.TongyiExample | src/factories/chat_model_registry_factory.ts:31-52 | a registry built from the documented descriptor builds the tongyi model by provider and by matching model, and the OpenAI model otherwise |
| Compressor.Calculate | src/factories/chat_message_compressor.ts:104-126 | the probe's cost is the token count of its rendered turns joined by blank lines; Render, RenderAllInOrder and JoinFromFront state the rendering |
| Compressor.Render | src/factories/chat_message_compressor.ts:110-122 | a system turn renders as "Instructions:" and its text; a user turn with the user label; any other role with the assistant label |
| Compressor.RenderAll | src/factories/chat_message_compressor.ts:110-122 | the `reduce` yields one part per turn |
| Compressor.RenderAllInOrder | src/factories/chat_message_compressor.ts:110-122 | part i is turn i rendered, so the parts keep the probe's order |
| Compressor.Join | src/factories/chat_message_compressor.ts:123 | joining no parts gives ""; one part gives that part |
| Compressor.JoinFromFront | src/factories/chat_message_compressor.ts:123 | a join is the first part, the separator, then the rest joined |
| Compressor.Label | src/factories/chat_message_compressor.ts:114-121 | the heading of a turn: "Instructions" for a system turn, the user label for a user turn, the assistant label for any other role; Render states the rendered turn |
| Compressor.Walk | src/factories/chat_message_compressor.ts:51-71 | the generator: pop turns from the newest, hold the latest non-user turn, yield each user turn with the held reply; CandidatesAreNearestReplies and CandidateRoles characterise it |
| Compressor.CandidatesAreNearestReplies | src/factories/chat_message_compressor.ts:51-71 | the backward walk yields, newest first, every user turn that has a later non-user turn, paired with the nearest such turn (which may be shared) |
| Compressor.CandidateRoles | src/factories/chat_message_compressor.ts:62-69 | every candidate is a user-role turn with a non-user reply |
| Compressor.Chronological | src/factories/chat_message_compressor.ts:91 | the accepted turns are two per accepted pair |
| Compressor.ChronologicalOrder | src/factories/chat_message_compressor.ts:91 | `unshift` puts the earliest accepted candidate last: pair j of the output is candidate k-1-j |
| Compressor.ChronologicalPush | src/factories/chat_message_compressor.ts:91 | accepting one more pair puts it in front of those accepted before |
| Compressor.Probe | src/factories/chat_message_compressor.ts:77-86 | the turns sent to `calculate` for a candidate: the accepted turns, the candidate's user turn and reply, the prompt, and the system turn last |
| Compressor.Fits | src/factories/chat_message_compressor.ts:88-90 | a candidate is accepted when its probe's token count is at most `max_tokens`, equality included; AcceptedCount states the loop over it |
| Compressor.AcceptedCount | src/factories/chat_message_compressor.ts:77-95 | every probe before the accepted count is within the budget (equality included), and the probe at the count, if any, is over it |
| Compressor.AcceptedCountIsUnique | src/factories/chat_message_compressor.ts:88-94 | the accepted count is the only prefix length with that property: the longest fitting prefix, stopped at the first failure |
| Compressor.NextCandidate | src/factories/chat_message_compressor.ts:77-91 | each yielded pair is the next candidate, and accepting it extends the accepted turns at the front |
| Compressor.CompressSpec | src/factories/chat_message_compressor.ts:37-101 | what `compress` returns: nothing for no turns, a lone system turn with its prompt missing, otherwise the system slot, the first KeptCount candidates in conversation order, and the prompt; ChatMessageCompressor.Compress, CompressKeepsEnds, CompressShape and Idempotent state its properties |
| Compressor.CompressKeepsEnds | src/factories/chat_message_compressor.ts:37-101 | empty input gives empty output; a lone system turn gives it with a missing prompt; otherwise the last output turn is the prompt, and a leading system turn stays first |
| Compressor.CompressShape | src/factories/chat_message_compressor.ts:73-101 | with k the accepted count, the output is the system slot, then for j < k the user turn and reply of candidate k-1-j (a user turn and a non-user turn), then the prompt; its length is sys + 2k + 1 |
| Compressor.CompressTurns | src/factories/chat_message_compressor.ts:37-101 | the output is the system slot, the first k candidates in conversation order, and the prompt, and every candidate is a user turn with a non-user reply |
| Compressor.AcceptedShape | src/factories/chat_message_compressor.ts:91-101 | between the head and the prompt the turns alternate user and non-user, pair j being candidate k-1-j, user turn and reply |
| Compressor.AcceptedPairs | src/factories/chat_message_compressor.ts:91-101 | the head comes first and the prompt last, and pair j between them is candidate k-1-j |
| Compressor.TightBudgetKeepsMinimum | src/factories/chat_message_compressor.ts:88-95 | when the first probe is over budget, only the system slot and the prompt remain |
| Compressor.WalkChronological | src/factories/chat_message_compressor.ts:51-71 | walking the turns of accepted pairs gives those pairs back, newest first |
| Compressor.PrefixIsAccepted | src/factories/chat_message_compressor.ts:77-95 | when the candidates are a prefix whose probes all fit, every one of them is accepted |
| Compressor.Idempotent | src/factories/chat_message_compressor.ts:37-101 | compressing the output again gives the same output, whatever the token counts and the budget, unless that output is a lone system turn |
| Compressor.RecompressAccepted | src/factories/chat_message_compressor.ts:37-101 | a system slot, accepted pairs whose probes all fit, and a prompt compress to themselves |
| Compressor.SplitAgain | src/factories/chat_message_compressor.ts:41-49 | such an output starts with a system turn exactly when the original input did, so it is split the same way |
| Compressor.NotIdempotentEdge | src/factories/chat_message_compressor.ts:40-101 | [user, system-role prompt] compresses to [prompt], and [prompt] alone compresses to [prompt, undefined] |
| Compressor.ReusedReplyExample | src/factories/chat_message_compressor.ts:56-69 | for [u1, u2, a, p] within budget the output is [u1, a, u2, a, p]: the reply is reused and the output is longer than the input |
| Compressor.OnePairFitsScenario | src/factories/chat_message_compressor.ts:77-101 | when the probe [u3, a3, u4, system] fits and the next probe [u3, a3, u2, a2, u4, system] does not, the output is [system, u3, a3, u4] |
| Compressor.ChatMessageCompressor.constructor | src/factories/chat_message_compressor.ts:29-35 | 0 or absent `max_tokens` gives 4000; "" or absent labels give "User" and "Assistant"; the encoding defaults to cl100k_base when absent; `calculate` counts the tokens of the probe rendered with the encoder and these labels |
| Compressor.ChatMessageCompressor.Compress | src/factories/chat_message_compressor.ts:37-102 | compress returns exactly `CompressSpec` of the caller's turns, for the compressor's calculate and budget, without changing them |
| Compressor.ChatMessageCompressor.KeepRecent | src/factories/chat_message_compressor.ts:51-95 | the interleaved walk and budget loop accept the first AcceptedCount candidates, in conversation order |

## Left out

- Regular-expression semantics are an uninterpreted `RegexEngine`. A pattern whose source is not a valid regular expression throws in JavaScript; that throw is not modelled.
- Matcher.Holds: a RegExp with the `g` or `y` flag makes `.test` stateful through `lastIndex`, so repeated searches with the same query can alternate between a hit and a miss. The model treats every test as a pure function of source, flags and value.
- The compressor's `encoder`, `max_tokens`, `user_label` and `assistant_label` are public, writable fields. `calculate` re-reads the labels on each probe, and `compress` reads `max_tokens` once per call. The model fixes them at construction, so assignments to these fields after construction are not modelled.
- Aliasing in the registry is not modelled. The registry keeps the caller's `options` object by reference and spreads it only when a model is created. `search` returns the stored entry object itself. A caller that later mutates either object would change later resolution; entries and options here are values.
- Vendor chat-model constructors (`create_chat_model_engine`, `create_openai_chat_model`) are uninterpreted functions. src/helpers/create_chat_model.ts is not part of this model.
- Registry.CreateLlmEngine: `create_chat_model_engine` is imported at src/factories/chat_model_registry_factory.ts:1-4, but src/helpers/create_chat_model.ts exports no function of that name. Its only general export is `create_chat_model(provider, config)` (line 8), which takes no context. The `ChatEngine` signature, a key giving a creator of options and context, is therefore an assumption.
- Registry.CreateLlmEngine: the source calls `create_chat_model_engine(key)` once, when the entry is resolved (src/factories/chat_model_registry_factory.ts:89). The model's `Engine(key)` applies the engine only when a model is created. The two agree only because `ChatEngine` is pure; side effects or failures of that call at registration time are not modelled.
- The tokenizer and its LRU cache (src/helpers/create_message_encoder.ts) are folded into one counting function per encoding. This includes the stripping of `<|endoftext|>`. That file is not part of this model.
- LangChain's `messageToOpenAIRole` is external. A LangChain message carries the role that mapping would give it.
- Async plumbing: `compress` and `calculate` only await in sequence, so the model is synchronous.
- The duplicate-registration `console.warn` is not modelled as output. `Register` returns it as the `duplicate` flag.
- Registry.ChatModelFactoryRegistry.Build: handles are always truthy. A creator that returns a falsy value, which `build` would replace with the OpenAI model, is not modelled.
- Registry.OptionString: a truthy non-string `provider` or `model` is treated as absent. JavaScript would use it as a map key or coerce it to a string when matching. ModelQuery and ProviderKey both use OptionString.
- An entry keeps only the name, the options, the compiled matcher and the creator. The source spreads every field of the descriptor except `llm` into the stored entry (src/factories/model_registry_factory.ts:82-90). So its `provider`, `test`, `include` and `exclude` are stored there too, with any extra fields. `search` returns that stored entry to its caller (lines 45 and 53), so a caller of `search` sees these fields. The model drops them, and SearchSpec returns only the four kept fields.
- Registry.ChatModelFactoryRegistry.Create: the JavaScript constructor throws on an invalid rule. The model returns a `Result` from a static method and keeps the constructor for already-resolved entries.
- Numbers are integers. `max_tokens` as NaN or a fraction, and floating-point token counts, are not modelled.
- The type-only files under src/types and the demos and re-exports are not modelled, since they have no runtime behaviour in the core.
