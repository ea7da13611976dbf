/** The two capabilities the program registers: a search-enrichment generator
    and a random-text generator. Each declares a constant tool schema and is
    called with the keyword arguments the model chose. The search client and
    the random number source are outside the model and form the `World`. */
module ContextGenerators {
  import opened Wrappers
  import opened Json
  import opened Models
  import opened Errors
  import Dicts

  const KagiName := "kagi_context_generator"
  const KagiDescription :=
    "Get top search results from Kagi, use the when users need information "
    + "about search results, like top hits, sites or recent headlines, but "
    + "they don't need detail about those hits."
  const SearchStringDescription :=
    "A string formatted for use with Kagi's enrichment API to "
    + "add additional info the requested information."

  const KagiToolConfig: Tool :=
    Tool(Function(
      KagiName,
      KagiDescription,
      Parameters([("search_string", Argument(String, SearchStringDescription))], ["search_string"])))

  const RandomName := "random_context_generator"
  const RandomDescription :=
    "Get some random information. Use this when users want random nonsense "
    + "added into their contexts because they're chaos monkies"

  const RandomToolConfig: Tool :=
    Tool(Function(RandomName, RandomDescription, Parameters([], [])))

  /** The search schema: one string argument, `search_string`, which is also
      the only required one; no other argument is allowed. On the wire the
      argument name keeps its underscore. */
  lemma KagiSchema()
    ensures KagiToolConfig.Name() == "kagi_context_generator"
    ensures Dicts.Keys(KagiToolConfig.func.parameters.properties) == ["search_string"]
    ensures Dicts.Get(KagiToolConfig.func.parameters.properties, "search_string")
         == Some(Argument(String, SearchStringDescription))
    ensures KagiToolConfig.func.parameters.required == ["search_string"]
    ensures forall r :: r in KagiToolConfig.func.parameters.required ==>
      r in Dicts.Keys(KagiToolConfig.func.parameters.properties)
    ensures !KagiToolConfig.func.parameters.additionalProperties
    ensures Dicts.Keys(PropertiesJson(KagiToolConfig.func.parameters.properties)) == ["search_string"]
  {
  }

  /** The random schema takes no argument at all. */
  lemma RandomSchema()
    ensures RandomToolConfig.Name() == "random_context_generator"
    ensures RandomToolConfig.func.parameters.properties == []
    ensures RandomToolConfig.func.parameters.required == []
    ensures !RandomToolConfig.func.parameters.additionalProperties
  {
  }

  /** A registered capability. The search generator owns a client built from
      its API key. */
  datatype Capability = KagiGenerator(apiKey: string) | RandomGenerator

  /** The class-level schema of a capability. */
  function ToolConfig(c: Capability): Tool {
    match c
    case KagiGenerator(_) => KagiToolConfig
    case RandomGenerator => RandomToolConfig
  }

  /** The keyword parameters the capability's call accepts, in order. */
  function CallParameters(c: Capability): seq<string> {
    match c
    case KagiGenerator(_) => ["search_string"]
    case RandomGenerator => []
  }

  /** Each capability's call takes exactly the arguments its schema declares,
      and all of them are required. */
  lemma CallMatchesSchema(c: Capability)
    ensures CallParameters(c) == Dicts.Keys(ToolConfig(c).func.parameters.properties)
    ensures CallParameters(c) == ToolConfig(c).func.parameters.required
  {
  }

  /** What `random.randint(1, 100)` can return: both bounds included. */
  type Draw = n: int | 1 <= n <= 100 witness 1

  /** The outside world a call can reach: the search client's enrichment
      request (None when it raises) and the random number drawn for the
      directive at a given position. */
  datatype World = World(
    enrich: (string, Json) -> Option<Dicts.Dict<string, Json>>,
    randInt: nat -> Draw)

  /** The values of the named keys, in the order of the names. */
  function LookupAll(names: seq<string>, fields: Dicts.Dict<string, Json>): (r: Option<seq<Json>>)
    ensures r.Some? <==> forall i :: 0 <= i < |names| ==> names[i] in Dicts.Keys(fields)
    ensures r.Some? ==> |r.value| == |names|
    ensures r.Some? ==> forall i :: 0 <= i < |names| ==> Dicts.Get(fields, names[i]) == Some(r.value[i])
  {
    if |names| == 0 then Some([])
    else
      match (Dicts.Get(fields, names[0]), LookupAll(names[1..], fields))
      case (Some(v), Some(rest)) =>
        assert forall i :: 1 <= i < |names| ==> names[i] == names[1..][i - 1];
        Some([v] + rest)
      case _ =>
        assert forall i :: 1 <= i < |names| ==> names[i] == names[1..][i - 1];
        None
  }

  /** `f(**args)` for a function whose keyword parameters are `params`: the
      arguments must be a mapping whose keys are exactly those parameters;
      anything else raises a `TypeError`. Values are not type-checked. */
  function BindKeywords(params: seq<string>, args: Json): (r: Option<seq<Json>>)
    ensures r.Some? <==>
      && args.JObject?
      && (forall i :: 0 <= i < |args.fields| ==> args.fields[i].0 in params)
      && (forall i :: 0 <= i < |params| ==> params[i] in Dicts.Keys(args.fields))
    ensures r.Some? ==> |r.value| == |params|
    ensures r.Some? ==> forall i :: 0 <= i < |params| ==> Dicts.Get(args.fields, params[i]) == Some(r.value[i])
  {
    match args
    case JObject(fields) =>
      if exists i :: 0 <= i < |fields| && fields[i].0 !in params then None
      else LookupAll(params, fields)
    case _ => None
  }

  /** One line of the search context, without its terminator. */
  function Line(key: string, value: Json, encode: Json -> string): string {
    key + ": " + encode(value)
  }

  /** The search context: one newline-terminated line per response entry, in
      the response's order. */
  function KagiText(response: Dicts.Dict<string, Json>, encode: Json -> string): (text: string)
    ensures |response| == 0 ==> text == ""
    ensures |text| >= 3 * |response|
  {
    if |response| == 0 then ""
    else Line(response[0].0, response[0].1, encode) + "\n" + KagiText(response[1..], encode)
  }

  /** The search context of a non-empty response ends with the newline of
      its last line. */
  lemma {:induction false} KagiTextEnds(response: Dicts.Dict<string, Json>, encode: Json -> string)
    requires |response| > 0
    ensures |KagiText(response, encode)| > 0
    ensures KagiText(response, encode)[|KagiText(response, encode)| - 1] == '\n'
  {
    var rest := KagiText(response[1..], encode);
    if |response| > 1 {
      KagiTextEnds(response[1..], encode);
    }
    var text := Line(response[0].0, response[0].1, encode) + "\n" + rest;
    assert text[|text| - 1] == (if |rest| == 0 then '\n' else rest[|rest| - 1]);
  }

  /** Where the first newline of `s` is; `|s|` when there is none. */
  function IndexOfNewline(s: string): (i: nat)
    ensures i <= |s|
    ensures forall j :: 0 <= j < i ==> s[j] != '\n'
    ensures i < |s| ==> s[i] == '\n'
  {
    if |s| == 0 then 0
    else if s[0] == '\n' then 0
    else 1 + IndexOfNewline(s[1..])
  }

  /** The lines of a text, each without its newline. */
  function SplitLines(s: string): seq<string>
    decreases |s|
  {
    if |s| == 0 then []
    else
      var i := IndexOfNewline(s);
      if i == |s| then [s] else [s[..i]] + SplitLines(s[i + 1..])
  }

  lemma SplitLinesCons(line: string, rest: string)
    requires '\n' !in line
    ensures SplitLines(line + "\n" + rest) == [line] + SplitLines(rest)
  {
    var s := line + "\n" + rest;
    var i := IndexOfNewline(s);
    assert s[|line|] == '\n';
    assert forall j :: 0 <= j < |line| ==> s[j] == line[j];
    assert i == |line|;
    assert s[..i] == line;
    assert s[i + 1..] == rest;
  }

  /** When neither keys nor encoded values contain a newline (the JSON encoder
      escapes newlines), the search context splits back into exactly one
      `key: value` line per response entry, in order. */
  lemma {:induction false} KagiLines(response: Dicts.Dict<string, Json>, encode: Json -> string)
    requires forall i :: 0 <= i < |response| ==> '\n' !in response[i].0 && '\n' !in encode(response[i].1)
    ensures |SplitLines(KagiText(response, encode))| == |response|
    ensures forall i :: 0 <= i < |response| ==>
      SplitLines(KagiText(response, encode))[i] == Line(response[i].0, response[i].1, encode)
  {
    if |response| > 0 {
      var line := Line(response[0].0, response[0].1, encode);
      assert '\n' !in line by {
        assert line == response[0].0 + ": " + encode(response[0].1);
        assert ": " == [':', ' '];
      }
      var tail := response[1..];
      var rest := KagiText(tail, encode);
      assert forall i :: 1 <= i < |response| ==> tail[i - 1] == response[i];
      KagiLines(tail, encode);
      var lines := SplitLines(KagiText(response, encode));
      assert lines == [line] + SplitLines(rest) by {
        assert KagiText(response, encode) == line + "\n" + rest;
        SplitLinesCons(line, rest);
      }
      forall i | 0 <= i < |response| ensures lines[i] == Line(response[i].0, response[i].1, encode) {
        if i > 0 {
          assert lines[i] == SplitLines(rest)[i - 1] && tail[i - 1] == response[i];
        }
      }
    }
  }

  function Digit(d: nat): (c: char)
    requires d < 10
    ensures '0' <= c <= '9'
  {
    ('0' as int + d) as char
  }

  /** `str(n)` for a natural number: its decimal digits. */
  function DecimalString(n: nat): (s: string)
    ensures |s| >= 1
    ensures forall i :: 0 <= i < |s| ==> '0' <= s[i] <= '9'
    ensures n < 10 <==> |s| == 1
    ensures n < 100 <==> |s| <= 2
    ensures n < 1000 <==> |s| <= 3
  {
    if n < 10 then [Digit(n)] else DecimalString(n / 10) + [Digit(n % 10)]
  }

  /** Reads a non-empty string of decimal digits. */
  function ParseDecimal(s: string): Option<nat> {
    if |s| == 0 then None
    else
      var c := s[|s| - 1];
      if !('0' <= c <= '9') then None
      else
        var d := c as int - '0' as int;
        if |s| == 1 then Some(d)
        else
          match ParseDecimal(s[..|s| - 1])
          case Some(v) => Some(v * 10 + d)
          case None => None
  }

  lemma {:induction false} DecimalRoundTrip(n: nat)
    ensures ParseDecimal(DecimalString(n)) == Some(n)
  {
    if n >= 10 {
      DecimalRoundTrip(n / 10);
      var s := DecimalString(n);
      assert s[..|s| - 1] == DecimalString(n / 10);
    }
  }

  const RandomPrefix := "The square root of 100 is "

  /** Reads a random context back: the fixed sentence, then a number. */
  function ParseRandomText(text: string): Option<nat> {
    if |text| >= |RandomPrefix| && text[..|RandomPrefix|] == RandomPrefix
    then ParseDecimal(text[|RandomPrefix|..])
    else None
  }

  /** The random context: the fixed sentence followed by the drawn number,
      which can be read back from it; the whole is at most three characters
      longer than the sentence. */
  function RandomText(n: Draw): (text: string)
    ensures |RandomPrefix| < |text| <= |RandomPrefix| + 3
    ensures text[..|RandomPrefix|] == RandomPrefix
    ensures ParseRandomText(text) == Some(n)
    ensures text[|RandomPrefix|..] == DecimalString(n)
  {
    var digits := DecimalString(n);
    DecimalRoundTrip(n);
    assert (RandomPrefix + digits)[|RandomPrefix|..] == digits;
    RandomPrefix + digits
  }

  /** A call without parameters accepts exactly the empty mapping. */
  lemma BindNoKeywords(args: Json)
    ensures BindKeywords([], args).Some? <==> args == JObject([])
  {
    if args.JObject? && |args.fields| > 0 {
      assert args.fields[0].0 !in [];
    }
  }

  /** Calling a capability with decoded keyword arguments: the directive at
      position `index` of the dispatch. */
  function Invoke(c: Capability, args: Json, codec: Codec, world: World, index: nat): (r: Result<Context, Error>)
    ensures r.Success? ==> BindKeywords(CallParameters(c), args).Some?
    ensures BindKeywords(CallParameters(c), args).None? ==> r == Failure(BadKeywordArguments(ToolConfig(c).Name()))
    ensures r.Failure? ==> r.error in {BadKeywordArguments(ToolConfig(c).Name()), SearchFailed(ToolConfig(c).Name())}
    ensures c.RandomGenerator? && r.Success? ==> ParseRandomText(r.value.text) == Some(world.randInt(index) as nat)
    ensures c.RandomGenerator? ==> (r.Success? <==> args == JObject([]))
    ensures BindKeywords(CallParameters(c), args).Some? && r.Failure? ==> r.error == SearchFailed(ToolConfig(c).Name())
    ensures c.KagiGenerator? && BindKeywords(CallParameters(c), args).Some? ==>
      (r.Failure? <==> world.enrich(c.apiKey, BindKeywords(CallParameters(c), args).value[0]).None?)
  {
    BindNoKeywords(args);
    match BindKeywords(CallParameters(c), args)
    case None => Failure(BadKeywordArguments(ToolConfig(c).Name()))
    case Some(values) =>
      match c
      case KagiGenerator(key) =>
        (match world.enrich(key, values[0])
         case None => Failure(SearchFailed(ToolConfig(c).Name()))
         case Some(response) => Success(Context(KagiText(response, codec.encode))))
      case RandomGenerator => Success(Context(RandomText(world.randInt(index))))
  }

  /** The search generator called with just a search string: the string
      goes to the enrichment service, and its response becomes the text. */
  lemma KagiCall(key: string, search: Json, codec: Codec, world: World, index: nat)
    ensures Invoke(KagiGenerator(key), JObject([("search_string", search)]), codec, world, index)
         == match world.enrich(key, search)
            case None => Failure(SearchFailed(KagiName))
            case Some(response) => Success(Context(KagiText(response, codec.encode)))
  {
    var fields := [("search_string", search)];
    assert Dicts.Get(fields, "search_string") == Some(search);
    assert !exists i :: 0 <= i < |fields| && fields[i].0 !in ["search_string"];
    var names := ["search_string"];
    assert names[1..] == [];
    assert LookupAll([], fields) == Some([]);
    assert [search] + [] == [search];
    assert LookupAll(["search_string"], fields) == Some([search]);
    assert BindKeywords(["search_string"], JObject(fields)) == Some([search]);
  }

  /** The random generator called with no arguments reports the draw for its
      position. */
  lemma RandomCall(codec: Codec, world: World, index: nat)
    ensures Invoke(RandomGenerator, JObject([]), codec, world, index)
         == Success(Context(RandomText(world.randInt(index))))
  {
    assert BindKeywords([], JObject([])) == Some([]);
  }
}
