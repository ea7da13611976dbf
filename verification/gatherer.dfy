/** The decision step: the registry of capabilities keyed by schema name, the
    schema list sent to the chat-completion service, and `decide`, which turns
    the model's tool calls into invocations and collects their contexts.

    The chat-completion call is a parameter (`Llm`), as are the JSON codec and
    the outside world the capabilities reach. */
module Gatherer {
  import opened Wrappers
  import opened Json
  import opened Models
  import opened Errors
  import opened ContextGenerators
  import Dicts
  import opened Seqs

  /** The settings the program loads from its environment. */
  datatype Config = Config(openaiApiKey: string, kagiApiKey: string)

  /** Tool name to capability, in registration order. */
  type Registry = Dicts.Dict<string, Capability>

  /** Every entry is filed under its capability's schema name. */
  predicate KeyedByName(tools: Registry) {
    forall i :: 0 <= i < |tools| ==> tools[i].0 == ToolConfig(tools[i].1).Name()
  }

  /** The pairs the registry comprehension produces, one per capability. */
  function Entries(caps: seq<Capability>): (es: seq<(string, Capability)>)
    ensures |es| == |caps|
    ensures forall i :: 0 <= i < |caps| ==> es[i] == (ToolConfig(caps[i]).Name(), caps[i])
  {
    seq(|caps|, i requires 0 <= i < |caps| => (ToolConfig(caps[i]).Name(), caps[i]))
  }

  /** The registry comprehension: each capability filed under its schema
      name. Names are not checked for duplicates; a later capability with the
      same name silently replaces an earlier one. */
  function BuildRegistry(caps: seq<Capability>): (tools: Registry)
    ensures Dicts.DistinctKeys(tools)
    ensures KeyedByName(tools)
    ensures forall i :: 0 <= i < |caps| ==> ToolConfig(caps[i]).Name() in Dicts.Keys(tools)
    ensures forall name :: Dicts.Get(tools, name) == Dicts.LastValue(Entries(caps), name)
    ensures Dicts.DistinctKeys(Entries(caps)) ==> tools == Entries(caps)
  {
    RegistryFromEntries(caps);
    Dicts.FromItems(Entries(caps))
  }

  lemma RegistryFromEntries(caps: seq<Capability>)
    ensures KeyedByName(Dicts.FromItems(Entries(caps)))
    ensures forall i :: 0 <= i < |caps| ==> ToolConfig(caps[i]).Name() in Dicts.Keys(Dicts.FromItems(Entries(caps)))
    ensures forall name :: Dicts.Get(Dicts.FromItems(Entries(caps)), name) == Dicts.LastValue(Entries(caps), name)
    ensures Dicts.DistinctKeys(Entries(caps)) ==> Dicts.FromItems(Entries(caps)) == Entries(caps)
  {
    var es := Entries(caps);
    var tools := Dicts.FromItems(es);
    forall name ensures Dicts.Get(tools, name) == Dicts.LastValue(es, name) {
      Dicts.FromItemsGet(es, name);
    }
    forall i | 0 <= i < |tools| ensures tools[i].0 == ToolConfig(tools[i].1).Name() {
      Dicts.GetAt(tools, i);
      var j :| 0 <= j < |es| && es[j] == (tools[i].0, tools[i].1);
    }
    forall i | 0 <= i < |caps| ensures ToolConfig(caps[i]).Name() in Dicts.Keys(tools) {
      assert Dicts.Keys(es)[i] == ToolConfig(caps[i]).Name();
      assert Dicts.LastValue(es, ToolConfig(caps[i]).Name()).Some?;
    }
    if Dicts.DistinctKeys(es) {
      Dicts.FromDistinctItems(es);
    }
  }

  /** `build_tools`: the search generator, then the random generator. Their
      schema names differ, so both are registered, in that order. */
  function BuildTools(cfg: Config): (tools: Registry)
    ensures tools == [(KagiName, KagiGenerator(cfg.kagiApiKey)), (RandomName, RandomGenerator)]
  {
    var caps := [KagiGenerator(cfg.kagiApiKey), RandomGenerator];
    assert Entries(caps) == [(KagiName, KagiGenerator(cfg.kagiApiKey)), (RandomName, RandomGenerator)];
    BuildRegistry(caps)
  }

  /** The tool name a dumped schema announces to the model. */
  function WireName(spec: Json): Option<string> {
    match Member(spec, "function")
    case Some(f) => StringMember(f, "name")
    case None => None
  }

  datatype DecisionMaker = DecisionMaker(tools: Registry, toolSpecs: seq<Json>)

  /** The constructor: one dumped schema per registry entry, in registry
      order. Each dump validates back to the entry's schema, and in a registry
      keyed by name the model is told exactly the registry's keys. */
  function NewDecisionMaker(tools: Registry): (dm: DecisionMaker)
    ensures dm.tools == tools
    ensures |dm.toolSpecs| == |tools|
    ensures forall i :: 0 <= i < |tools| ==> ParseTool(dm.toolSpecs[i]) == Some(ToolConfig(tools[i].1))
    ensures KeyedByName(tools) ==> forall i :: 0 <= i < |tools| ==> WireName(dm.toolSpecs[i]) == Some(tools[i].0)
  {
    var specs := seq(|tools|, i requires 0 <= i < |tools| => ToolJson(ToolConfig(tools[i].1)));
    SpecsDescribeTools(tools, specs);
    DecisionMaker(tools, specs)
  }

  lemma SpecsDescribeTools(tools: Registry, specs: seq<Json>)
    requires |specs| == |tools|
    requires forall i :: 0 <= i < |tools| ==> specs[i] == ToolJson(ToolConfig(tools[i].1))
    ensures forall i :: 0 <= i < |tools| ==> ParseTool(specs[i]) == Some(ToolConfig(tools[i].1))
    ensures forall i :: 0 <= i < |tools| ==> WireName(specs[i]) == Some(ToolConfig(tools[i].1).Name())
  {
    forall i | 0 <= i < |tools|
      ensures ParseTool(specs[i]) == Some(ToolConfig(tools[i].1))
      ensures WireName(specs[i]) == Some(ToolConfig(tools[i].1).Name())
    {
      ToolRoundTrip(ToolConfig(tools[i].1));
      WireShape(ToolConfig(tools[i].1));
    }
  }

  datatype Message = Message(role: string, content: string)

  const SystemInstruction :=
    "You are a decision support system tasked with helping "
    + "users gather information about a larger context. Use the support "
    + "tools to help the user determine which tools may help them "
    + "find the information that is useful to them."

  const Model := "gpt-4o"

  /** The conversation sent with every prompt: the fixed system instruction,
      then the prompt as the user's message. */
  function Messages(prompt: string): (ms: seq<Message>)
    ensures |ms| == 2
    ensures ms[0] == Message("system", SystemInstruction)
    ensures ms[1] == Message("user", prompt)
  {
    [Message("system", SystemInstruction), Message("user", prompt)]
  }

  /** Only the user's message depends on the prompt. */
  lemma PromptOnlyInUserMessage(p: string, q: string)
    ensures Messages(p)[0] == Messages(q)[0]
    ensures Messages(p)[1].content == p
    ensures Messages(p) == Messages(q) <==> p == q
  {
    assert Messages(p)[1].content == p && Messages(q)[1].content == q;
  }

  datatype Request = Request(model: string, messages: seq<Message>, tools: seq<Json>)

  function ComposeRequest(dm: DecisionMaker, prompt: string): (req: Request)
    ensures req.model == Model
    ensures req.messages == Messages(prompt)
    ensures req.tools == dm.toolSpecs
  {
    Request(Model, Messages(prompt), dm.toolSpecs)
  }

  /** The request for a registry: the model, the conversation, and one
      schema per registered tool that validates back to the tool's schema
      and, when the registry is keyed by name, announces the tool's key. */
  lemma RequestDescribesTools(tools: Registry, prompt: string)
    ensures ComposeRequest(NewDecisionMaker(tools), prompt).model == "gpt-4o"
    ensures ComposeRequest(NewDecisionMaker(tools), prompt).messages
         == [Message("system", SystemInstruction), Message("user", prompt)]
    ensures |ComposeRequest(NewDecisionMaker(tools), prompt).tools| == |tools|
    ensures forall i :: 0 <= i < |tools| ==>
      ParseTool(ComposeRequest(NewDecisionMaker(tools), prompt).tools[i]) == Some(ToolConfig(tools[i].1))
    ensures KeyedByName(tools) ==> forall i :: 0 <= i < |tools| ==>
      WireName(ComposeRequest(NewDecisionMaker(tools), prompt).tools[i]) == Some(tools[i].0)
  {
  }

  /** The program's request offers the model exactly two tools: the search
      generator, then the random generator, each under its schema name. */
  lemma ProgramRequest(cfg: Config, prompt: string)
    ensures |ComposeRequest(NewDecisionMaker(BuildTools(cfg)), prompt).tools| == 2
    ensures WireName(ComposeRequest(NewDecisionMaker(BuildTools(cfg)), prompt).tools[0]) == Some(KagiName)
    ensures WireName(ComposeRequest(NewDecisionMaker(BuildTools(cfg)), prompt).tools[1]) == Some(RandomName)
    ensures ParseTool(ComposeRequest(NewDecisionMaker(BuildTools(cfg)), prompt).tools[0]) == Some(KagiToolConfig)
    ensures ParseTool(ComposeRequest(NewDecisionMaker(BuildTools(cfg)), prompt).tools[1]) == Some(RandomToolConfig)
  {
    var tools := BuildTools(cfg);
    BuiltRegistry(cfg, KagiName);
    RequestDescribesTools(tools, prompt);
    assert tools[0].1 == KagiGenerator(cfg.kagiApiKey) && tools[1].1 == RandomGenerator;
  }

  /** A tool call as the model returns it: a name and a JSON-encoded argument
      string, neither trusted yet. */
  datatype ToolCall = ToolCall(name: string, arguments: string)

  /** One choice of the completion; its tool calls may be absent. */
  datatype Choice = Choice(toolCalls: Option<seq<ToolCall>>)

  datatype Completion = Completion(choices: seq<Choice>)

  /** The chat-completion service; None when the call raises. */
  type Llm = Request -> Option<Completion>

  /** The tool calls a choice contributes: none when absent or empty. */
  function CallsOf(c: Choice): seq<ToolCall> {
    match c.toolCalls
    case None => []
    case Some(calls) => calls
  }

  /** All tool calls of a completion: choice by choice, and within a choice in
      the order given. */
  function Flatten(choices: seq<Choice>): seq<ToolCall> {
    if |choices| == 0 then []
    else Flatten(choices[..|choices| - 1]) + CallsOf(choices[|choices| - 1])
  }

  /** Choices without tool calls contribute nothing. */
  lemma {:induction false} FlattenWithoutCalls(choices: seq<Choice>)
    requires forall i :: 0 <= i < |choices| ==> CallsOf(choices[i]) == []
    ensures Flatten(choices) == []
  {
    if |choices| > 0 {
      var init := choices[..|choices| - 1];
      assert forall i :: 0 <= i < |init| ==> init[i] == choices[i];
      FlattenWithoutCalls(init);
    }
  }

  lemma {:induction false} FlattenAppend(a: seq<Choice>, b: seq<Choice>)
    ensures Flatten(a + b) == Flatten(a) + Flatten(b)
  {
    if |b| == 0 {
      assert a + b == a;
    } else {
      var b' := b[..|b| - 1];
      FlattenAppend(a, b');
      InitOfAppend(a, b);
    }
  }

  /** One more choice adds its calls at the end. */
  lemma FlattenSnoc(choices: seq<Choice>, c: Choice)
    ensures Flatten(choices + [c]) == Flatten(choices) + CallsOf(c)
  {
    var all := choices + [c];
    assert all[..|all| - 1] == choices;
    assert all[|all| - 1] == c;
  }

  /** The calls of a choice sit between those of the choices around it. */
  lemma FlattenMiddle(before: seq<Choice>, c: Choice, after: seq<Choice>)
    ensures Flatten(before + [c] + after) == Flatten(before) + CallsOf(c) + Flatten(after)
  {
    FlattenAppend(before + [c], after);
    FlattenSnoc(before, c);
  }

  /** The calls of the i-th choice sit between those of the choices before
      and after it. */
  lemma FlattenAround(choices: seq<Choice>, i: nat)
    requires i < |choices|
    ensures Flatten(choices) == Flatten(choices[..i]) + CallsOf(choices[i]) + Flatten(choices[i + 1..])
  {
    SplitAt(choices, i);
    FlattenMiddle(choices[..i], choices[i], choices[i + 1..]);
  }

  /** The j-th call of the i-th choice is collected right after every call of
      the earlier choices and the earlier calls of its own choice. */
  lemma FlattenPosition(choices: seq<Choice>, i: nat, j: nat)
    requires i < |choices| && j < |CallsOf(choices[i])|
    ensures |Flatten(choices[..i])| + j < |Flatten(choices)|
    ensures Flatten(choices)[|Flatten(choices[..i])| + j] == CallsOf(choices[i])[j]
  {
    FlattenAround(choices, i);
  }

  /** A call resolved against the registry, with its decoded arguments. */
  datatype Resolved = Resolved(name: string, capability: Capability, args: Json)

  /** One call: its arguments are decoded first, then its name is looked up. */
  function ResolveOne(tools: Registry, call: ToolCall, decode: string -> Option<Json>): (r: Result<Resolved, Error>)
    ensures r.Success? <==> decode(call.arguments).Some? && call.name in Dicts.Keys(tools)
    ensures r.Success? ==> Dicts.Get(tools, call.name) == Some(r.value.capability)
    ensures r.Success? ==> r.value.name == call.name && decode(call.arguments) == Some(r.value.args)
    ensures decode(call.arguments).None? ==> r == Failure(ArgumentsNotJson(call.arguments))
    ensures decode(call.arguments).Some? && r.Failure? ==> r == Failure(UnknownTool(call.name))
  {
    match decode(call.arguments)
    case None => Failure(ArgumentsNotJson(call.arguments))
    case Some(args) =>
      match Dicts.Get(tools, call.name)
      case None => Failure(UnknownTool(call.name))
      case Some(capability) => Success(Resolved(call.name, capability, args))
  }

  /** Every call resolved in order; the first one that fails stops the walk. */
  function ResolveAll(tools: Registry, calls: seq<ToolCall>, decode: string -> Option<Json>): (r: Result<seq<Resolved>, Error>)
    ensures r.Success? <==> forall i :: 0 <= i < |calls| ==> ResolveOne(tools, calls[i], decode).Success?
    ensures r.Success? ==> |r.value| == |calls|
    ensures r.Success? ==> forall i :: 0 <= i < |calls| ==> ResolveOne(tools, calls[i], decode) == Success(r.value[i])
  {
    if |calls| == 0 then Success([])
    else
      var init := calls[..|calls| - 1];
      assert forall i :: 0 <= i < |init| ==> init[i] == calls[i];
      match ResolveAll(tools, init, decode)
      case Failure(e) => Failure(e)
      case Success(acc) =>
        match ResolveOne(tools, calls[|calls| - 1], decode)
        case Failure(e) => Failure(e)
        case Success(r) => Success(acc + [r])
  }

  /** Resolving one more call: it extends a walk that has not failed yet, and
      a failure of the walk so far or of the call ends it. */
  lemma ResolveStep(tools: Registry, calls: seq<ToolCall>, call: ToolCall, decode: string -> Option<Json>)
    ensures ResolveAll(tools, calls + [call], decode)
         == match ResolveAll(tools, calls, decode)
            case Failure(e) => Failure(e)
            case Success(acc) =>
              match ResolveOne(tools, call, decode)
              case Failure(e) => Failure(e)
              case Success(r) => Success(acc + [r])
  {
    var all := calls + [call];
    assert all[..|all| - 1] == calls;
    assert all[|all| - 1] == call;
  }

  /** A failed resolution reports the first call that fails, and every call
      before it resolved. */
  lemma {:induction false} ResolveFirstFailure(tools: Registry, calls: seq<ToolCall>, decode: string -> Option<Json>)
    requires ResolveAll(tools, calls, decode).Failure?
    ensures exists k :: (0 <= k < |calls|
      && (forall i :: 0 <= i < k ==> ResolveOne(tools, calls[i], decode).Success?)
      && ResolveOne(tools, calls[k], decode) == Failure(ResolveAll(tools, calls, decode).error))
  {
    var init := calls[..|calls| - 1];
    assert forall i :: 0 <= i < |init| ==> init[i] == calls[i];
    if ResolveAll(tools, init, decode).Failure? {
      assert ResolveAll(tools, calls, decode) == ResolveAll(tools, init, decode);
      ResolveFirstFailure(tools, init, decode);
      var k :| 0 <= k < |init|
        && (forall i :: 0 <= i < k ==> ResolveOne(tools, init[i], decode).Success?)
        && ResolveOne(tools, init[k], decode) == Failure(ResolveAll(tools, init, decode).error);
      assert init[k] == calls[k];
      assert forall i :: 0 <= i < k ==> ResolveOne(tools, calls[i], decode).Success?;
    } else {
      var k := |calls| - 1;
      assert ResolveOne(tools, calls[k], decode) == Failure(ResolveAll(tools, calls, decode).error);
    }
  }

  /** Calls after a failure change nothing: the walk stopped there. */
  lemma {:induction false} ResolveFailureExtends(tools: Registry, xs: seq<ToolCall>, ys: seq<ToolCall>, decode: string -> Option<Json>)
    requires ResolveAll(tools, xs, decode).Failure?
    ensures ResolveAll(tools, xs + ys, decode) == ResolveAll(tools, xs, decode)
  {
    if |ys| > 0 {
      var ys' := ys[..|ys| - 1];
      ResolveFailureExtends(tools, xs, ys', decode);
      InitOfAppend(xs, ys);
    } else {
      assert xs + ys == xs;
    }
  }

  /** A call that fails after every earlier call resolved decides the
      outcome, whatever follows it. */
  lemma ResolveFailsAt(tools: Registry, xs: seq<ToolCall>, call: ToolCall, ys: seq<ToolCall>, decode: string -> Option<Json>)
    requires ResolveAll(tools, xs, decode).Success?
    requires ResolveOne(tools, call, decode).Failure?
    ensures ResolveAll(tools, xs + [call] + ys, decode) == Failure(ResolveOne(tools, call, decode).error)
  {
    ResolveStep(tools, xs, call, decode);
    ResolveFailureExtends(tools, xs + [call], ys, decode);
  }

  /** Calling a capability with decoded arguments as the directive at a given
      position. */
  type Call = (Capability, Json, nat) -> Result<Context, Error>

  /** The calls the registered capabilities make in a given world. */
  function Caller(codec: Codec, world: World): Call {
    (c: Capability, args: Json, i: nat) => Invoke(c, args, codec, world, i)
  }

  /** The outcome of dispatching: the contexts or the error, and the names of
      the tools actually invoked, in order. */
  datatype Run = Run(result: Result<seq<Context>, Error>, invoked: seq<string>)

  function Names(rs: seq<Resolved>): (names: seq<string>)
    ensures |names| == |rs|
    ensures forall i :: 0 <= i < |rs| ==> names[i] == rs[i].name
  {
    seq(|rs|, i requires 0 <= i < |rs| => rs[i].name)
  }

  /** The resolved calls invoked one at a time in order; an invocation that
      raises ends the dispatch and discards the contexts gathered so far. */
  function DispatchAll(rs: seq<Resolved>, call: Call): (run: Run)
    ensures |run.invoked| <= |rs| && run.invoked == Names(rs)[..|run.invoked|]
    ensures run.result.Success? ==> |run.invoked| == |rs| && |run.result.value| == |rs|
    ensures run.result.Success? ==> forall i :: 0 <= i < |rs| ==>
      call(rs[i].capability, rs[i].args, i) == Success(run.result.value[i])
    ensures run.result.Failure? ==> |run.invoked| > 0
  {
    if |rs| == 0 then Run(Success([]), [])
    else
      var n := |rs| - 1;
      var init := rs[..n];
      DispatchPrefix(rs, n);
      var prev := DispatchAll(init, call);
      if prev.result.Failure? then prev
      else
        var invoked := prev.invoked + [rs[n].name];
        match call(rs[n].capability, rs[n].args, n)
        case Failure(e) => Run(Failure(e), invoked)
        case Success(c) =>
          var contexts := prev.result.value + [c];
          assert forall i :: 0 <= i < |rs| ==>
            call(rs[i].capability, rs[i].args, i) == Success(contexts[i]) by {
            forall i | 0 <= i < |rs|
              ensures call(rs[i].capability, rs[i].args, i) == Success(contexts[i])
            {
              if i < n {
                assert init[i] == rs[i] && contexts[i] == prev.result.value[i];
              }
            }
          }
          Run(Success(contexts), invoked)
  }

  lemma DispatchPrefix(rs: seq<Resolved>, n: nat)
    requires n <= |rs|
    ensures forall i :: 0 <= i < n ==> rs[..n][i] == rs[i]
    ensures Names(rs[..n]) == Names(rs)[..n]
  {
  }

  /** Dispatch fails exactly when some invocation raises; the tools invoked
      are those up to and including the first that raises. */
  predicate Invokes(rs: seq<Resolved>, call: Call, i: nat)
    requires i < |rs|
  {
    call(rs[i].capability, rs[i].args, i).Success?
  }

  lemma {:induction false} DispatchSucceedsIff(rs: seq<Resolved>, call: Call)
    ensures DispatchAll(rs, call).result.Success? <==>
      forall i :: 0 <= i < |rs| ==> Invokes(rs, call, i)
  {
    if |rs| > 0 {
      var n := |rs| - 1;
      var init := rs[..n];
      DispatchPrefix(rs, n);
      DispatchSucceedsIff(init, call);
      var prev := DispatchAll(init, call);
      assert forall i :: 0 <= i < n ==> (Invokes(init, call, i) <==> Invokes(rs, call, i));
      if prev.result.Success? {
        assert DispatchAll(rs, call).result.Success? <==> Invokes(rs, call, n);
      }
    }
  }

  lemma {:induction false} DispatchFailsAtLast(rs: seq<Resolved>, call: Call)
    requires DispatchAll(rs, call).result.Failure?
    ensures forall i :: 0 <= i < |DispatchAll(rs, call).invoked| - 1 ==> Invokes(rs, call, i)
    ensures call(rs[|DispatchAll(rs, call).invoked| - 1].capability,
                 rs[|DispatchAll(rs, call).invoked| - 1].args,
                 |DispatchAll(rs, call).invoked| - 1)
         == Failure(DispatchAll(rs, call).result.error)
  {
    var n := |rs| - 1;
    var init := rs[..n];
    DispatchPrefix(rs, n);
    var prev := DispatchAll(init, call);
    if prev.result.Failure? {
      assert DispatchAll(rs, call) == prev;
      DispatchFailsAtLast(init, call);
      var m := |prev.invoked|;
      assert init[m - 1] == rs[m - 1];
      forall i | 0 <= i < m - 1 ensures Invokes(rs, call, i) {
        assert Invokes(init, call, i) && init[i] == rs[i];
      }
    } else {
      DispatchSucceedsIff(init, call);
      assert |DispatchAll(rs, call).invoked| == n + 1;
      forall i | 0 <= i < n ensures Invokes(rs, call, i) {
        assert Invokes(init, call, i) && init[i] == rs[i];
      }
    }
  }

  /** Directives after a failed invocation are never invoked. */
  lemma {:induction false} DispatchFailureExtends(xs: seq<Resolved>, ys: seq<Resolved>, call: Call)
    requires DispatchAll(xs, call).result.Failure?
    ensures DispatchAll(xs + ys, call) == DispatchAll(xs, call)
  {
    if |ys| > 0 {
      var ys' := ys[..|ys| - 1];
      DispatchFailureExtends(xs, ys', call);
      InitOfAppend(xs, ys);
    } else {
      assert xs + ys == xs;
    }
  }

  /** `decide`: query the model, collect and resolve every directive, and only
      then invoke them. Only tools the model asked for and the registry holds
      are ever invoked, in the order asked, and none without a completion. */
  function DecideRun(dm: DecisionMaker, prompt: string, llm: Llm, codec: Codec, world: World): (r: Run)
    ensures llm(ComposeRequest(dm, prompt)).None? ==> r.invoked == [] && r.result.Failure?
    ensures llm(ComposeRequest(dm, prompt)).Some? ==>
      var calls := Flatten(llm(ComposeRequest(dm, prompt)).value.choices);
      && |r.invoked| <= |calls|
      && forall i :: 0 <= i < |r.invoked| ==>
           r.invoked[i] == calls[i].name && calls[i].name in Dicts.Keys(dm.tools)
  {
    match llm(ComposeRequest(dm, prompt))
    case None => Run(Failure(CompletionFailed), [])
    case Some(completion) =>
      match ResolveAll(dm.tools, Flatten(completion.choices), codec.decode)
      case Failure(e) => Run(Failure(e), [])
      case Success(rs) => DispatchAll(rs, Caller(codec, world))
  }

  /** The directives of the completion the model returns for this prompt. */
  function Directives(completion: Completion): seq<ToolCall> {
    Flatten(completion.choices)
  }

  /** All or nothing: a directive whose arguments do not decode or whose name
      is not registered fails the whole call before any tool is invoked, and
      the error is that of the first such directive. */
  lemma DecideFailsBeforeInvoking(dm: DecisionMaker, prompt: string, llm: Llm, codec: Codec, world: World, k: nat)
    requires llm(ComposeRequest(dm, prompt)).Some?
    requires k < |Directives(llm(ComposeRequest(dm, prompt)).value)|
    requires ResolveOne(dm.tools, Directives(llm(ComposeRequest(dm, prompt)).value)[k], codec.decode).Failure?
    requires forall i :: 0 <= i < k ==>
      ResolveOne(dm.tools, Directives(llm(ComposeRequest(dm, prompt)).value)[i], codec.decode).Success?
    ensures DecideRun(dm, prompt, llm, codec, world).invoked == []
    ensures DecideRun(dm, prompt, llm, codec, world).result
         == Failure(ResolveOne(dm.tools, Directives(llm(ComposeRequest(dm, prompt)).value)[k], codec.decode).error)
  {
    var calls := Directives(llm(ComposeRequest(dm, prompt)).value);
    var r := ResolveAll(dm.tools, calls, codec.decode);
    assert r.Failure?;
    ResolveFirstFailure(dm.tools, calls, codec.decode);
    var k' :| 0 <= k' < |calls|
      && (forall i :: 0 <= i < k' ==> ResolveOne(dm.tools, calls[i], codec.decode).Success?)
      && ResolveOne(dm.tools, calls[k'], codec.decode) == Failure(r.error);
    assert k' == k;
  }

  /** A completion without tool calls gives no contexts and is not an error. */
  lemma DecideWithoutCalls(dm: DecisionMaker, prompt: string, llm: Llm, codec: Codec, world: World)
    requires llm(ComposeRequest(dm, prompt)).Some?
    requires forall i :: 0 <= i < |llm(ComposeRequest(dm, prompt)).value.choices| ==>
      CallsOf(llm(ComposeRequest(dm, prompt)).value.choices[i]) == []
    ensures DecideRun(dm, prompt, llm, codec, world) == Run(Success([]), [])
  {
    FlattenWithoutCalls(llm(ComposeRequest(dm, prompt)).value.choices);
  }

  /** On success there is one context per directive, in directive order: the
      i-th is the i-th directive's registered capability applied to its
      decoded arguments. */
  lemma DecideSuccess(dm: DecisionMaker, prompt: string, llm: Llm, codec: Codec, world: World)
    requires DecideRun(dm, prompt, llm, codec, world).result.Success?
    ensures llm(ComposeRequest(dm, prompt)).Some?
    ensures |DecideRun(dm, prompt, llm, codec, world).result.value| == |Directives(llm(ComposeRequest(dm, prompt)).value)|
    ensures forall i :: 0 <= i < |Directives(llm(ComposeRequest(dm, prompt)).value)| ==>
      var call := Directives(llm(ComposeRequest(dm, prompt)).value)[i];
      && codec.decode(call.arguments).Some?
      && Dicts.Get(dm.tools, call.name).Some?
      && Invoke(Dicts.Get(dm.tools, call.name).value, codec.decode(call.arguments).value, codec, world, i)
         == Success(DecideRun(dm, prompt, llm, codec, world).result.value[i])
  {
    var completion := llm(ComposeRequest(dm, prompt)).value;
    var calls := Directives(completion);
    var rs := ResolveAll(dm.tools, calls, codec.decode);
    assert rs.Success?;
  }

  /** The program's registry: both generators, each found under its own
      schema name and under no other name. */
  lemma BuiltRegistry(cfg: Config, name: string)
    ensures Dicts.DistinctKeys(BuildTools(cfg)) && KeyedByName(BuildTools(cfg))
    ensures Dicts.Get(BuildTools(cfg), KagiName) == Some(KagiGenerator(cfg.kagiApiKey))
    ensures Dicts.Get(BuildTools(cfg), RandomName) == Some(RandomGenerator)
    ensures Dicts.Get(BuildTools(cfg), name).Some? <==> name == KagiName || name == RandomName
  {
    var tools := BuildTools(cfg);
    Dicts.GetAt(tools, 0);
    Dicts.GetAt(tools, 1);
    assert Dicts.Keys(tools) == [KagiName, RandomName];
  }

  /** A completion with a single directive that resolves: dispatch is left
      with exactly that directive. */
  lemma DecideSingle(dm: DecisionMaker, prompt: string, llm: Llm, codec: Codec, world: World,
                     call: ToolCall, capability: Capability, args: Json)
    requires llm(ComposeRequest(dm, prompt)).Some?
    requires Directives(llm(ComposeRequest(dm, prompt)).value) == [call]
    requires codec.decode(call.arguments) == Some(args)
    requires Dicts.Get(dm.tools, call.name) == Some(capability)
    ensures DecideRun(dm, prompt, llm, codec, world)
         == DispatchAll([Resolved(call.name, capability, args)], Caller(codec, world))
  {
    ResolveStep(dm.tools, [], call, codec.decode);
    assert [] + [call] == [call];
  }

  /** Dispatching one directive invokes it, as directive 0. */
  lemma DispatchOne(r: Resolved, call: Call)
    ensures DispatchAll([r], call)
         == match call(r.capability, r.args, 0)
            case Success(c) => Run(Success([c]), [r.name])
            case Failure(e) => Run(Failure(e), [r.name])
  {
    assert [r][..0] == [];
    assert DispatchAll([], call) == Run(Success([]), []);
    assert [] + [r.name] == [r.name];
    match call(r.capability, r.args, 0)
    case Success(c) => assert [] + [c] == [c];
    case Failure(e) =>
  }

  /** Two choices contribute their calls in choice order. */
  lemma FlattenTwo(a: Choice, b: Choice)
    ensures Flatten([a, b]) == CallsOf(a) + CallsOf(b)
  {
    assert [a, b][..1] == [a];
    assert [a][..0] == [];
    assert Flatten([a]) == Flatten([]) + CallsOf(a);
  }

  /** With the program's registry, a directive naming a tool that was never
      registered fails the call, and nothing is invoked. */
  lemma DecideUnknownTool(cfg: Config, dm: DecisionMaker, prompt: string, llm: Llm, codec: Codec, world: World, arguments: string)
    requires dm.tools == BuildTools(cfg)
    requires llm(ComposeRequest(dm, prompt)) == Some(Completion([Choice(Some([ToolCall("ghost_tool", arguments)]))]))
    requires codec.decode(arguments).Some?
    ensures DecideRun(dm, prompt, llm, codec, world) == Run(Failure(UnknownTool("ghost_tool")), [])
  {
    var call := ToolCall("ghost_tool", arguments);
    assert Flatten([Choice(Some([call]))]) == [call] by {
      assert [Choice(Some([call]))][..0] == [];
    }
    BuiltRegistry(cfg, "ghost_tool");
    DecideFailsBeforeInvoking(dm, prompt, llm, codec, world, 0);
  }

  /** With the program's registry, a lone call of the random generator with
      an empty argument object, after a choice without calls, gives one
      context, the random text for its draw, and invokes only that
      generator. */
  lemma DecideRandomOnly(cfg: Config, dm: DecisionMaker, prompt: string, llm: Llm, codec: Codec, world: World, arguments: string)
    requires dm.tools == BuildTools(cfg)
    requires llm(ComposeRequest(dm, prompt))
          == Some(Completion([Choice(None), Choice(Some([ToolCall(RandomName, arguments)]))]))
    requires codec.decode(arguments) == Some(JObject([]))
    ensures DecideRun(dm, prompt, llm, codec, world)
         == Run(Success([Context(RandomText(world.randInt(0)))]), [RandomName])
  {
    var call := ToolCall(RandomName, arguments);
    FlattenTwo(Choice(None), Choice(Some([call])));
    BuiltRegistry(cfg, RandomName);
    DecideSingle(dm, prompt, llm, codec, world, call, RandomGenerator, JObject([]));
    var r := Resolved(RandomName, RandomGenerator, JObject([]));
    DispatchOne(r, Caller(codec, world));
    RandomCall(codec, world, 0);
  }

  /** With the program's registry, a lone search directive whose arguments
      hold just a search string invokes only the search generator, and its
      context is the enrichment response laid out line by line. */
  lemma DecideKagiOnly(cfg: Config, dm: DecisionMaker, prompt: string, llm: Llm, codec: Codec, world: World,
                       arguments: string, search: Json)
    requires dm.tools == BuildTools(cfg)
    requires llm(ComposeRequest(dm, prompt)) == Some(Completion([Choice(Some([ToolCall(KagiName, arguments)]))]))
    requires codec.decode(arguments) == Some(JObject([("search_string", search)]))
    ensures DecideRun(dm, prompt, llm, codec, world)
         == match world.enrich(cfg.kagiApiKey, search)
            case None => Run(Failure(SearchFailed(KagiName)), [KagiName])
            case Some(response) => Run(Success([Context(KagiText(response, codec.encode))]), [KagiName])
  {
    var call := ToolCall(KagiName, arguments);
    assert Flatten([Choice(Some([call]))]) == [call] by {
      assert [Choice(Some([call]))][..0] == [];
    }
    BuiltRegistry(cfg, KagiName);
    var args := JObject([("search_string", search)]);
    DecideSingle(dm, prompt, llm, codec, world, call, KagiGenerator(cfg.kagiApiKey), args);
    DispatchOne(Resolved(KagiName, KagiGenerator(cfg.kagiApiKey), args), Caller(codec, world));
    KagiCall(cfg.kagiApiKey, search, codec, world, 0);
  }

  /** The Python loops of `decide` that collect the directives. */
  method CollectDirectives(tools: Registry, completion: Completion, decode: string -> Option<Json>)
    returns (r: Result<seq<Resolved>, Error>)
    ensures r == ResolveAll(tools, Flatten(completion.choices), decode)
  {
    var choices := completion.choices;
    var acc: seq<Resolved> := [];
    var i := 0;
    while i < |choices|
      invariant 0 <= i <= |choices|
      invariant ResolveAll(tools, Flatten(choices[..i]), decode) == Success(acc)
    {
      var resolved := CollectChoice(tools, Flatten(choices[..i]), acc, choices[i], decode);
      FlattenSnoc(choices[..i], choices[i]);
      TakeSnoc(choices, i);
      if resolved.Failure? {
        CollectStops(tools, choices, i + 1, decode);
        return resolved;
      }
      acc := resolved.value;
      i := i + 1;
    }
    assert choices[..i] == choices;
    return Success(acc);
  }

  /** One choice of the loop: skipped when it has no tool calls, otherwise
      its calls are resolved after the directives `done` collected so far. */
  method CollectChoice(tools: Registry, ghost done: seq<ToolCall>, acc: seq<Resolved>, choice: Choice,
                       decode: string -> Option<Json>)
    returns (r: Result<seq<Resolved>, Error>)
    requires ResolveAll(tools, done, decode) == Success(acc)
    ensures r == ResolveAll(tools, done + CallsOf(choice), decode)
  {
    if choice.toolCalls.Some? && |choice.toolCalls.value| > 0 {
      r := CollectCalls(tools, done, acc, choice.toolCalls.value, decode);
    } else {
      assert done + CallsOf(choice) == done;
      r := Success(acc);
    }
  }

  /** The inner loop: the calls of one choice, resolved after the directives
      `done` collected so far. */
  method CollectCalls(tools: Registry, ghost done: seq<ToolCall>, acc: seq<Resolved>, calls: seq<ToolCall>,
                      decode: string -> Option<Json>)
    returns (r: Result<seq<Resolved>, Error>)
    requires ResolveAll(tools, done, decode) == Success(acc)
    ensures r == ResolveAll(tools, done + calls, decode)
  {
    var collected := acc;
    var j := 0;
    assert done + calls[..0] == done;
    while j < |calls|
      invariant 0 <= j <= |calls|
      invariant ResolveAll(tools, done + calls[..j], decode) == Success(collected)
    {
      var call := calls[j];
      assert done + calls[..j + 1] == done + calls[..j] + [call];
      ResolveStep(tools, done + calls[..j], call, decode);
      var args := decode(call.arguments);
      if args.None? {
        CallsStop(tools, done, calls, j, decode);
        return Failure(ArgumentsNotJson(call.arguments));
      }
      var capability := Dicts.Get(tools, call.name);
      if capability.None? {
        CallsStop(tools, done, calls, j, decode);
        return Failure(UnknownTool(call.name));
      }
      collected := collected + [Resolved(call.name, capability.value, args.value)];
      j := j + 1;
    }
    assert calls[..j] == calls;
    return Success(collected);
  }

  /** A call that fails decides the outcome for the rest of its choice. */
  lemma CallsStop(tools: Registry, done: seq<ToolCall>, calls: seq<ToolCall>, j: nat, decode: string -> Option<Json>)
    requires j < |calls|
    requires ResolveAll(tools, done + calls[..j], decode).Success?
    requires ResolveOne(tools, calls[j], decode).Failure?
    ensures ResolveAll(tools, done + calls, decode) == Failure(ResolveOne(tools, calls[j], decode).error)
  {
    SplitAt(calls, j);
    assert done + calls == done + calls[..j] + [calls[j]] + calls[j + 1..];
    ResolveFailsAt(tools, done + calls[..j], calls[j], calls[j + 1..], decode);
  }

  /** Once the directives of the first n choices fail to resolve, the later
      choices change nothing. */
  lemma CollectStops(tools: Registry, choices: seq<Choice>, n: nat, decode: string -> Option<Json>)
    requires n <= |choices|
    requires ResolveAll(tools, Flatten(choices[..n]), decode).Failure?
    ensures ResolveAll(tools, Flatten(choices), decode) == ResolveAll(tools, Flatten(choices[..n]), decode)
  {
    SplitTake(choices, n);
    FlattenAppend(choices[..n], choices[n..]);
    ResolveFailureExtends(tools, Flatten(choices[..n]), Flatten(choices[n..]), decode);
  }

  /** One more directive after a dispatch that has not failed yet. */
  lemma DispatchStep(rs: seq<Resolved>, k: nat, call: Call)
    requires k < |rs|
    requires DispatchAll(rs[..k], call).result.Success?
    ensures
      var prev := DispatchAll(rs[..k], call);
      var c := call(rs[k].capability, rs[k].args, k);
      DispatchAll(rs[..k + 1], call)
        == if c.Success? then Run(Success(prev.result.value + [c.value]), prev.invoked + [rs[k].name])
           else Run(Failure(c.error), prev.invoked + [rs[k].name])
  {
    assert rs[..k + 1][..k] == rs[..k];
    assert rs[..k + 1][k] == rs[k];
  }

  /** Once one of the first n directives fails, the later ones change
      nothing. */
  lemma DispatchStops(rs: seq<Resolved>, n: nat, call: Call)
    requires n <= |rs|
    requires DispatchAll(rs[..n], call).result.Failure?
    ensures DispatchAll(rs, call) == DispatchAll(rs[..n], call)
  {
    SplitTake(rs, n);
    DispatchFailureExtends(rs[..n], rs[n..], call);
  }

  /** The Python loop of `decide` that invokes the collected directives. */
  method Dispatch(rs: seq<Resolved>, call: Call)
    returns (result: Result<seq<Context>, Error>, invoked: seq<string>)
    ensures Run(result, invoked) == DispatchAll(rs, call)
  {
    var results: seq<Context> := [];
    invoked := [];
    var k := 0;
    while k < |rs|
      invariant 0 <= k <= |rs|
      invariant DispatchAll(rs[..k], call) == Run(Success(results), invoked)
    {
      DispatchStep(rs, k, call);
      invoked := invoked + [rs[k].name];
      var context := call(rs[k].capability, rs[k].args, k);
      if context.Failure? {
        DispatchStops(rs, k + 1, call);
        return Failure(context.error), invoked;
      }
      results := results + [context.value];
      k := k + 1;
    }
    assert rs[..k] == rs;
    return Success(results), invoked;
  }

  /** `decide` as the program runs it. */
  method Decide(dm: DecisionMaker, prompt: string, llm: Llm, codec: Codec, world: World)
    returns (result: Result<seq<Context>, Error>, invoked: seq<string>)
    ensures Run(result, invoked) == DecideRun(dm, prompt, llm, codec, world)
  {
    var completion := llm(ComposeRequest(dm, prompt));
    if completion.None? {
      return Failure(CompletionFailed), [];
    }
    var directives := CollectDirectives(dm.tools, completion.value, codec.decode);
    if directives.Failure? {
      return Failure(directives.error), [];
    }
    result, invoked := Dispatch(directives.value, Caller(codec, world));
  }
}
