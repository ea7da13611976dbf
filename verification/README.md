# openai-scratch tool-calling core in Dafny

This project models how openai-scratch orchestrates tool calling, and proves
properties of that model. There are three parts:

- **Tool schemas.** A `Tool` wraps a `Function`, which holds a name, a
  description and `Parameters`. Each argument has a JSON Schema primitive
  `Type`. The schema is dumped to JSON under camelCase aliases, so
  `additional_properties` goes out as `additionalProperties`.
- **The registry and `decide`.**
  - `build_tools` files each capability under its schema name.
  - The decision maker sends one dumped schema per registry entry, with a
    fixed system instruction and the user's prompt, to a chat-completion
    service.
  - It then collects every tool call of every choice, decoding the JSON
    arguments and looking the name up in the registry. Any failure here ends
    the call before any tool runs.
  - Finally it invokes the resolved tools in order, one `Context` per
    directive.
- **The two context generators.**
  - The Kagi generator lays an enrichment response out as `key: <json>` lines.
  - The random generator reports a random number from 1 to 100.

Modules, each in its own file:

| module | file | models |
|---|---|---|
| `Wrappers` | `wrappers.dfy` | `Option` and `Result` |
| `Seqs` | `seqs.dfy` | facts about cutting sequences apart, shared by the proofs |
| `Errors` | `errors.dfy` | the exceptions `decide` can end with, as values |
| `Dicts` | `dicts.dfy` | Python's insertion-ordered `dict` as an association list |
| `Json` | `json.dfy` | JSON values, and the codec as a pair of functions |
| `Alias` | `alias.dfy` | pydantic's `to_camel` alias generator |
| `Models` | `models.dfy` | `openai_scratch/models.py` |
| `ContextGenerators` | `context_generators.dfy` | `openai_scratch/context_generators.py` |
| `Gatherer` | `gatherer.dfy` | `build_tools` and `LLMGathererDecisionMaker` in `openai_scratch/main.py` |

The outside world is passed in as parameters:

- The chat-completion service is an `Llm` function from request to
  completion. `None` stands for a call that raises.
- `json.loads` and `json.dumps` form a `Codec`. Decoding is partial.
- The Kagi client's `enrich` and `random.randint` form a `World`.
  - `enrich` is partial, returning `None` when the search raises.
  - The draw for the directive at position `i` is `randInt(i)`. Its type
    `Draw` holds exactly the integers from 1 to 100.

`decide` is modelled twice:

- As reference functions over whole sequences: `Flatten`, `ResolveAll`,
  `DispatchAll` and `DecideRun`.
- As methods with the program's loops: `CollectDirectives` (with
  `CollectChoice` and `CollectCalls` for its inner steps), `Dispatch` and
  `Decide`. Each method is proved equal to its reference function.

The outcome of a call is a `Run`: the contexts or the error, together with
the names of the tools actually invoked. This trace is what makes "nothing
is invoked" statable.

The program performs none of the following checks, and neither does the
model:

- Duplicate names: `build_tools` keeps the last capability under a repeated
  name, at the position where the name first appeared. It raises no
  configuration error.
- `required` is not checked against `properties` when a schema is built.
- There are no skip or best-effort policies: an unknown tool, undecodable
  arguments or a failing invocation each end the whole call.
- There are no timeouts.
- Argument values are not type-checked against the schema.

## Model

| member | source | states |
|---|---|---|
| Models.TypeNamesBijective | openai_scratch/models.py:15-20 | `Type` and the five names "string", "number", "integer", "boolean", "null" correspond one to one: parsing a type's name gives the type back, and a name parses to a type exactly when it is that type's name |
| Models.ParseType | openai_scratch/models.py:15-20 | validating a type name accepts only the name of one of the five members |
| Models.WireShape | openai_scratch/models.py:44-49 | the dump `ToolJson` of a tool always has `type` "function", has the dumped function under `function`, and announces `name()` (`Tool.Name`), the function's name |
| Models.ParametersWireShape | openai_scratch/models.py:31-35 | dumped parameters always have `type` "object", carry the flag under the camelCase key `additionalProperties`, and have no `additional_properties` key |
| Models.ParseParameters | openai_scratch/models.py:35 | parameters validated from JSON without an `additionalProperties` member get the default false |
| Models.KeysAreAliases | openai_scratch/models.py:7-8 | every model field is dumped under `to_camel` of its snake_case name: `additional_properties` becomes `additionalProperties`, and single-word names are unchanged |
| Models.PropertiesJson | openai_scratch/models.py:28 | argument names are dict keys, not model fields: they are emitted verbatim and in order |
| Models.ParseProperties | openai_scratch/models.py:33 | validated properties keep the JSON object's keys verbatim and in order |
| Models.ArgumentRoundTrip | openai_scratch/models.py:23-25 | an argument dumped by `ArgumentJson` validates back to the same type and description |
| Models.PropertiesRoundTrip | openai_scratch/models.py:33 | dumped properties validate back to the same argument names, in order, with the same arguments |
| Models.StringsRoundTrip | openai_scratch/models.py:34 | a `required` list dumped by `StringsJson` validates back to the same names, in order |
| Models.ParametersMembers | openai_scratch/models.py:31-35 | dumped parameters hold each of the four fields under its alias |
| Models.ParametersRoundTrip | openai_scratch/models.py:31-35 | parameters dumped by `ParametersJson` validate back to the same properties, required names and flag |
| Models.FunctionRoundTrip | openai_scratch/models.py:38-41 | a function dumped by `FunctionJson` validates back to the same name, description and parameters |
| Models.ToolRoundTrip | openai_scratch/models.py:38-49 | `model_dump(by_alias=True)`, modelled by `ToolJson`, loses nothing: validating the dump gives the same tool |
| Alias.AliasOfWords | openai_scratch/models.py:7-8 | `to_camel` of lower-case words joined by `_` is the first word followed by the others capitalised |
| Alias.CamelAppend | openai_scratch/models.py:7-8 | the general translation works piecewise across a cut that does not follow an underscore, the rest being translated after the cut's last character |
| Alias.CamelRoundTrip | openai_scratch/models.py:7-8 | on snake_case names, `to_camel` is undone by the snake_case conversion |
| Alias.CamelInjective | openai_scratch/models.py:7-8 | distinct snake_case names get distinct aliases, so no two fields share a key |
| Alias.CamelOfSnakeName | openai_scratch/models.py:7-8 | the alias of a snake_case name has no underscore, and it is shorter by exactly the number of underscores |
| Alias.CamelOfNoUpper | openai_scratch/models.py:7-8 | on names without capitals, returning a name that already is camelCase unchanged agrees with the general translation |
| Alias.CamelAfterDigit | openai_scratch/models.py:7-8 | a letter after a digit is capitalised: "a1b" becomes "a1B" |
| Alias.CamelSharedAlias | openai_scratch/models.py:7-8 | off snake_case names `to_camel` is not one to one: "a1_b" and "a1b" share an alias |
| Alias.CamelBeforeDigit | openai_scratch/models.py:7-8 | an underscore between a letter and a digit is dropped: "a_1" becomes "a1" |
| Alias.ToCamel | openai_scratch/models.py:7-8 | the alias is never longer than the name, and a name of lower-case letters only is its own alias |
| Alias.ToSnake | openai_scratch/models.py:7-8 | the inverse conversion never shortens a name and leaves no capitals |
| ContextGenerators.KagiSchema | openai_scratch/context_generators.py:11-32 | the search schema is named "kagi_context_generator". It has the single property "search_string", of type string with its description. That name is also the only required name, so `required` ⊆ properties. Additional properties are off, and the dump emits the property name verbatim |
| ContextGenerators.RandomSchema | openai_scratch/context_generators.py:49-61 | the random schema is named "random_context_generator", with no properties, no required names and additional properties off |
| ContextGenerators.CallMatchesSchema | openai_scratch/context_generators.py:37 | each generator's keyword parameters are exactly its schema's property names and its required names |
| ContextGenerators.BindKeywords | openai_scratch/context_generators.py:37 | `tool(**args)` binds exactly when the arguments are an object whose keys are all parameters and cover every parameter; each parameter then gets its key's value |
| ContextGenerators.BindNoKeywords | openai_scratch/context_generators.py:63 | the random generator accepts exactly the empty object |
| ContextGenerators.KagiText | openai_scratch/context_generators.py:41-45 | an empty response gives empty text, and every entry contributes at least its separator and newline |
| ContextGenerators.KagiTextEnds | openai_scratch/context_generators.py:41-45 | the text of a non-empty response ends with a newline: the last entry's line is terminated too |
| ContextGenerators.KagiLines | openai_scratch/context_generators.py:41-45 | when keys and encodings hold no newline, the text splits into exactly one line per response entry, the i-th being `key: encode(value)` of the i-th entry |
| ContextGenerators.DecimalRoundTrip | openai_scratch/context_generators.py:64 | the decimal rendering of a number parses back to it |
| ContextGenerators.DecimalString | openai_scratch/context_generators.py:64 | a number renders as decimal digits, one digit below 10, at most two below 100 and at most three below 1000 |
| ContextGenerators.RandomText | openai_scratch/context_generators.py:63-64 | the random text starts with "The square root of 100 is ", is followed by the decimal rendering of the draw (one to three digits), and reads back as the drawn number |
| ContextGenerators.Invoke | openai_scratch/context_generators.py:37-45 | a call whose arguments do not bind fails with a bad-keyword error. Once they bind, the only failure is a search error, and a search call fails exactly when the enrichment service does. The random generator succeeds exactly on empty arguments, and its text reads back as the position's draw |
| ContextGenerators.RandomCall | openai_scratch/context_generators.py:63-64 | the random generator called without arguments reports the random text for its position's draw |
| ContextGenerators.KagiCall | openai_scratch/context_generators.py:37-45 | the search generator sends the search string to the enrichment service; a failed search is an error, and otherwise its response becomes the text |
| Dicts.FromItems | openai_scratch/main.py:76 | the dict a comprehension builds has distinct keys |
| Dicts.FromItemsGet | openai_scratch/main.py:76 | a key of a comprehension-built dict maps to the last value given for it, and absent keys were never given |
| Dicts.FromDistinctItems | openai_scratch/main.py:76 | with distinct keys, the dict holds the pairs in the order given |
| Dicts.InsertNew | openai_scratch/main.py:76 | storing a new key appends the pair at the end |
| Dicts.InsertPresent | openai_scratch/main.py:76 | storing a present key keeps every key at its position |
| Dicts.InsertGet | openai_scratch/main.py:76 | after storing a key, the key finds the new value |
| Dicts.InsertOther | openai_scratch/main.py:76 | storing a key leaves every other key's value alone |
| Gatherer.BuildRegistry | openai_scratch/main.py:76 | the registry has distinct keys, and every entry is filed under its capability's schema name. Every capability's name is present and maps to the last capability with that name. Distinct names give the capabilities in order |
| Gatherer.BuildTools | openai_scratch/main.py:67-76 | the program's registry is the search generator under "kagi_context_generator", then the random generator under "random_context_generator" |
| Gatherer.BuiltRegistry | openai_scratch/main.py:67-76 | the two schema names differ, so both generators are registered. Each is found under its own name, and no other name finds anything |
| Gatherer.NewDecisionMaker | openai_scratch/main.py:24-29 | one dumped schema per registry entry, in registry order. Each validates back to its entry's schema, and in a registry keyed by name each announces its entry's key |
| Gatherer.PromptOnlyInUserMessage | openai_scratch/main.py:32-43 | in the conversation `Messages` builds, the system message does not depend on the prompt, the user's message carries the prompt, and two conversations are equal exactly when the prompts are |
| Gatherer.RequestDescribesTools | openai_scratch/main.py:24-48 | the request `ComposeRequest` builds names model "gpt-4o", carries the system instruction then the prompt, and holds one schema per registered tool, each validating back to the tool's schema and, in a registry keyed by name, announcing the tool's key |
| Gatherer.ProgramRequest | openai_scratch/main.py:24-76 | with the program's registry the request offers exactly two tools, "kagi_context_generator" then "random_context_generator", whose schemas validate back to the two generators' schemas |
| Gatherer.FlattenWithoutCalls | openai_scratch/main.py:51-52 | choices whose tool calls are absent or empty contribute no directives |
| Gatherer.FlattenPosition | openai_scratch/main.py:50-58 | in `Flatten`, directives follow choice order, then call order within a choice: the j-th call of the i-th choice comes right after all calls of earlier choices and the j earlier calls of its own |
| Gatherer.FlattenAppend | openai_scratch/main.py:50-58 | collecting two runs of choices gives the first run's directives, then the second's |
| Gatherer.ResolveOne | openai_scratch/main.py:55-58 | a call resolves exactly when its arguments decode and its name is registered, to the registered capability and the decoded arguments. Arguments are decoded before the name is looked up |
| Gatherer.ResolveAll | openai_scratch/main.py:49-58 | collection succeeds exactly when every directive resolves; it then yields one resolved directive per call, position by position |
| Gatherer.ResolveFirstFailure | openai_scratch/main.py:49-58 | a failed collection reports the error of the first directive that fails, and every directive before it resolved |
| Gatherer.ResolveFailureExtends | openai_scratch/main.py:49-58 | calls after a failing one change nothing |
| Gatherer.DispatchAll | openai_scratch/main.py:60-64 | the tools invoked are a prefix of the directives, in order. On success every directive was invoked and there is one context per directive, the i-th being the i-th directive's capability applied to its arguments. A failure invoked at least one tool |
| Gatherer.DispatchSucceedsIff | openai_scratch/main.py:60-64 | dispatch succeeds exactly when every invocation succeeds |
| Gatherer.DispatchFailsAtLast | openai_scratch/main.py:60-64 | a failed dispatch stops at the first invocation that raises: all before it succeeded and its error is the call's |
| Gatherer.DispatchOne | openai_scratch/main.py:60-64 | dispatching one directive invokes just that tool, as directive 0, and reports its context or error |
| Gatherer.DispatchStops | openai_scratch/main.py:60-64 | once one of the first directives fails, the later ones are never invoked |
| Gatherer.DispatchFailureExtends | openai_scratch/main.py:60-64 | directives after a failed invocation are never invoked |
| Gatherer.DecideRun | openai_scratch/main.py:31-64 | `decide` invokes only tools the model asked for that are registered, in the order asked, at most one per directive, and nothing when the completion call fails |
| Gatherer.DecideFailsBeforeInvoking | openai_scratch/main.py:49-62 | a directive that does not decode or names an unregistered tool fails `decide` with the first such directive's error, and no tool is invoked |
| Gatherer.DecideWithoutCalls | openai_scratch/main.py:49-64 | a completion without tool calls gives an empty list of contexts and invokes nothing |
| Gatherer.DecideSuccess | openai_scratch/main.py:49-64 | on success there is one context per directive, in directive order. The i-th is the i-th directive's registered capability applied to its decoded arguments |
| Gatherer.DecideSingle | openai_scratch/main.py:49-64 | a completion with one resolvable directive dispatches exactly that directive |
| Gatherer.DecideUnknownTool | openai_scratch/main.py:54-58 | with the program's registry, a directive naming "ghost_tool" fails with an unknown-tool error for "ghost_tool" and invokes nothing |
| Gatherer.DecideRandomOnly | openai_scratch/main.py:49-64 | with the program's registry, a lone random directive with empty arguments, after a choice without calls, gives exactly the random text for the first draw and invokes only the random generator |
| Gatherer.DecideKagiOnly | openai_scratch/main.py:49-64 | with the program's registry, a lone search directive gives the enrichment response laid out as text, or the search error, and invokes only the search generator |
| Gatherer.CollectDirectives | openai_scratch/main.py:49-58 | the collection loop over the choices computes exactly the reference collection, including which error stops it |
| Gatherer.CollectChoice | openai_scratch/main.py:51-58 | one choice is skipped when its tool calls are absent or empty; otherwise its calls are resolved after the directives collected so far |
| Gatherer.CollectCalls | openai_scratch/main.py:54-58 | the loop over one choice's calls resolves them in order after the directives collected so far, and stops at the first that fails |
| Gatherer.CollectStops | openai_scratch/main.py:49-58 | once the directives of the first choices fail to resolve, later choices change nothing |
| Gatherer.Dispatch | openai_scratch/main.py:60-64 | the invocation loop computes exactly the reference dispatch: the same contexts or error, and the same tools invoked |
| Gatherer.Decide | openai_scratch/main.py:31-64 | `decide` as written computes exactly the reference outcome: a completion failure, a collection failure with nothing invoked, or the dispatch of all directives |

## Left out

- `openai_scratch/config.py` loads settings from the environment, which is
  I/O. The model takes a `Config` value holding the two keys.
- The OpenAI client is outside the model:
  - the unused `AsyncOpenAI` client built in the constructor;
  - the module-level chat-completion call, which is the `Llm` parameter;
  - the async `main` with its two sample prompts and printing.
- `kagiapi` internals are outside the model. The client is represented by
  its API key, and its `enrich` call by `World.enrich`.
- `json.loads` and `json.dumps` internals are outside the model, and so is
  the handling of duplicate keys in decoded objects. They form the `Codec`
  parameter.
- JSON numbers are integers only. Floating point is not modelled.
- `random.randint` is not modelled as a random source. It is the
  `World.randInt` parameter, indexed by the directive's position.
- The unused `GATHER_TOOLS_AGENT_SYSTEM_PROMPT` constant and the `ToolSpec`
  protocol are not modelled. The capability set is closed: the two
  generators of the program.
- Alias.ToCamel: only ASCII letters and digits are told apart from other
  characters. Python's `str.title` also changes the case of other letters,
  and `\d` also matches other digits. The shortcut that returns a name
  which already is camelCase follows recent pydantic 2 releases, which
  earlier ones lack; `CamelOfNoUpper` shows it makes no difference on names
  without capitals.
- Alias.CamelRoundTrip: stated for snake_case names only. Off them
  `to_camel` is not one to one (`CamelSharedAlias`), so no inverse exists.
- Alias.CamelInjective: stated for snake_case names only, for the same
  reason.
- ContextGenerators.KagiText: the layout is stated through `KagiLines`
  (one `key: <json>` line per entry) and `KagiTextEnds` (the final newline). `KagiLines`
  assumes keys and encodings without newlines: `json.dumps` escapes
  newlines, but a response key may hold one.
- ContextGenerators.Invoke: Python's exceptions are modelled as `Error`
  values. The two errors a generator can raise are not distinguished
  further, e.g. the exact `TypeError` message.
- Gatherer.DecideRandomOnly: the random number is `randInt(0)` rather than a
  fresh draw.
- Pydantic validation of `Tool` is modelled only to state the round trip of
  the dump (`ParseTool`). Error messages and coercions are not modelled.
