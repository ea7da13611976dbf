/** The tool schema a capability declares, in the shape the chat-completion
    function-calling protocol expects: a `function` envelope around a name, a
    description and a JSON-Schema object describing the keyword arguments. */
module Models {
  import opened Wrappers
  import opened Json
  import Dicts
  import Alias

  /** The JSON Schema primitive type names an argument may declare. */
  datatype Type = String | Number | Integer | Boolean | Null

  function TypeName(t: Type): string {
    match t
    case String => "string"
    case Number => "number"
    case Integer => "integer"
    case Boolean => "boolean"
    case Null => "null"
  }

  /** Validating a type name: only the five names are accepted. */
  function ParseType(s: string): (r: Option<Type>)
    ensures r.Some? ==> TypeName(r.value) == s
  {
    if s == "string" then Some(String)
    else if s == "number" then Some(Number)
    else if s == "integer" then Some(Integer)
    else if s == "boolean" then Some(Boolean)
    else if s == "null" then Some(Null)
    else None
  }

  /** The five type names and the five types correspond one to one. */
  lemma TypeNamesBijective(t: Type, s: string)
    ensures ParseType(TypeName(t)) == Some(t)
    ensures ParseType(s) == Some(t) <==> TypeName(t) == s
  {
  }

  /** One argument's schema. A typed dictionary, so its keys are not aliased. */
  datatype Argument = Argument(ty: Type, description: string)

  /** Argument name to argument schema, in declaration order. */
  type Properties = Dicts.Dict<string, Argument>

  /** The object schema of a call's keyword arguments. Its JSON Schema `type`
      is always "object", so it is not stored; `additionalProperties` is false
      unless given. */
  datatype Parameters = Parameters(properties: Properties, required: seq<string>, additionalProperties: bool := false)

  datatype Function = Function(name: string, description: string, parameters: Parameters)

  /** A tool schema. Its `type` is always "function", so it is not stored; `func`
      is the field the program calls `function`. */
  datatype Tool = Tool(func: Function) {
    /** The name the registry files the tool under. */
    function Name(): string {
      func.name
    }
  }

  /** One gathered piece of information. */
  datatype Context = Context(text: string)

  const ObjectLiteral := "object"
  const FunctionLiteral := "function"

  /** The model fields, as the words of their declared snake_case names. */
  const TypeField: seq<string> := ["type"]
  const PropertiesField: seq<string> := ["properties"]
  const RequiredField: seq<string> := ["required"]
  const AdditionalPropertiesField: seq<string> := ["additional", "properties"]
  const NameField: seq<string> := ["name"]
  const DescriptionField: seq<string> := ["description"]
  const ParametersField: seq<string> := ["parameters"]
  const FunctionField: seq<string> := ["function"]

  const ModelFields: seq<seq<string>> :=
    [TypeField, PropertiesField, RequiredField, AdditionalPropertiesField,
     NameField, DescriptionField, ParametersField, FunctionField]

  /** The keys the fields are dumped under when serialising by alias, in the
      order of `ModelFields`. */
  const TypeKey := "type"
  const PropertiesKey := "properties"
  const RequiredKey := "required"
  const AdditionalPropertiesKey := "additionalProperties"
  const NameKey := "name"
  const DescriptionKey := "description"
  const ParametersKey := "parameters"
  const FunctionKey := "function"

  const ModelKeys: seq<string> :=
    [TypeKey, PropertiesKey, RequiredKey, AdditionalPropertiesKey,
     NameKey, DescriptionKey, ParametersKey, FunctionKey]

  /** Every key the serialiser writes is the camelCase alias of the declared
      field name; only `additional_properties` changes. */
  lemma KeysAreAliases()
    ensures |ModelKeys| == |ModelFields|
    ensures forall i :: 0 <= i < |ModelFields| ==>
      Alias.ToCamel(Alias.JoinSnake(ModelFields[i])) == ModelKeys[i]
    ensures Alias.JoinSnake(AdditionalPropertiesField) == "additional_properties"
    ensures forall i :: 0 <= i < |ModelFields| && i != 3 ==>
      ModelKeys[i] == Alias.JoinSnake(ModelFields[i])
  {
    forall i | 0 <= i < |ModelFields|
      ensures Alias.ToCamel(Alias.JoinSnake(ModelFields[i])) == Alias.JoinCamel(ModelFields[i])
    {
      var f := ModelFields[i];
      forall j | 0 <= j < |f| ensures Alias.IsWord(f[j]) {
        var w := f[j];
        assert |w| > 0;
        forall k | 0 <= k < |w| ensures Alias.IsLower(w[k]) {
        }
      }
      Alias.AliasOfWords(f);
    }
    CamelKeys();
  }

  /** The camelCase joins of the field words, word list by word list. */
  lemma CamelKeys()
    ensures forall i :: 0 <= i < |ModelFields| ==> Alias.JoinCamel(ModelFields[i]) == ModelKeys[i]
  {
    assert Alias.JoinCamel(AdditionalPropertiesField) == AdditionalPropertiesKey;
  }

  function ArgumentJson(a: Argument): Json {
    JObject([("type", JString(TypeName(a.ty))), ("description", JString(a.description))])
  }

  /** The `properties` object: argument names are dictionary keys, not model
      fields, so they are written exactly as given. */
  function PropertiesJson(props: Properties): (r: Dicts.Dict<string, Json>)
    ensures Dicts.Keys(r) == Dicts.Keys(props)
  {
    if |props| == 0 then []
    else [(props[0].0, ArgumentJson(props[0].1))] + PropertiesJson(props[1..])
  }

  function StringsJson(ss: seq<string>): (r: seq<Json>)
    ensures |r| == |ss|
    ensures forall i :: 0 <= i < |ss| ==> r[i] == JString(ss[i])
  {
    seq(|ss|, i requires 0 <= i < |ss| => JString(ss[i]))
  }

  function ParametersJson(p: Parameters): Json {
    JObject([
      (TypeKey, JString(ObjectLiteral)),
      (PropertiesKey, JObject(PropertiesJson(p.properties))),
      (RequiredKey, JArray(StringsJson(p.required))),
      (AdditionalPropertiesKey, JBool(p.additionalProperties))
    ])
  }

  function FunctionJson(f: Function): Json {
    JObject([
      (NameKey, JString(f.name)),
      (DescriptionKey, JString(f.description)),
      (ParametersKey, ParametersJson(f.parameters))
    ])
  }

  /** `model_dump(by_alias=True)` of a tool schema. */
  function ToolJson(t: Tool): Json {
    JObject([
      (TypeKey, JString(FunctionLiteral)),
      (FunctionKey, FunctionJson(t.func))
    ])
  }

  /** The wire schema carries the fixed envelope and object literals, the
      tool's name where the protocol looks for it, and the camelCase key
      `additionalProperties` instead of the declared field name. */
  lemma WireShape(t: Tool)
    ensures Member(ToolJson(t), "type") == Some(JString("function"))
    ensures Member(ToolJson(t), "function") == Some(FunctionJson(t.func))
    ensures Member(FunctionJson(t.func), "name") == Some(JString(t.Name()))
  {
    var tf := ToolJson(t).fields;
    assert tf[0].0 == "type" && tf[1].0 == "function";
    Dicts.GetFirst(tf, 0, "type");
    Dicts.GetFirst(tf, 1, "function");
    var ff := FunctionJson(t.func).fields;
    assert ff[0].0 == "name";
    Dicts.GetFirst(ff, 0, "name");
  }

  /** The parameter schema on the wire: the "object" literal, and the
      camelCase key `additionalProperties` in place of the declared field
      name. */
  lemma ParametersWireShape(p: Parameters)
    ensures Member(ParametersJson(p), "type") == Some(JString("object"))
    ensures Member(ParametersJson(p), "additionalProperties") == Some(JBool(p.additionalProperties))
    ensures Member(ParametersJson(p), "additional_properties") == None
  {
    ParametersMembers(p);
    SnakeKeyAbsent(JString(ObjectLiteral), JObject(PropertiesJson(p.properties)),
                   JArray(StringsJson(p.required)), JBool(p.additionalProperties));
  }

  /** No key of an object laid out as a dumped parameter schema is the
      declared snake_case field name. */
  lemma SnakeKeyAbsent(t: Json, props: Json, req: Json, additional: Json)
    ensures Member(JObject([(TypeKey, t), (PropertiesKey, props), (RequiredKey, req), (AdditionalPropertiesKey, additional)]),
                   "additional_properties") == None
  {
    var pf := [(TypeKey, t), (PropertiesKey, props), (RequiredKey, req), (AdditionalPropertiesKey, additional)];
    assert Dicts.Keys(pf) == [TypeKey, PropertiesKey, RequiredKey, AdditionalPropertiesKey];
  }

  /** Reads a string member. */
  function StringMember(j: Json, key: string): Option<string> {
    match Member(j, key)
    case Some(JString(s)) => Some(s)
    case _ => None
  }

  /** Validation of an argument schema. */
  function ParseArgument(j: Json): Option<Argument> {
    match (StringMember(j, "type"), StringMember(j, "description"))
    case (Some(tn), Some(d)) =>
      (match ParseType(tn)
       case Some(t) => Some(Argument(t, d))
       case None => None)
    case _ => None
  }

  function ParseProperties(fields: Dicts.Dict<string, Json>): (r: Option<Properties>)
    ensures r.Some? ==> Dicts.Keys(r.value) == Dicts.Keys(fields)
  {
    if |fields| == 0 then Some([])
    else
      match (ParseArgument(fields[0].1), ParseProperties(fields[1..]))
      case (Some(a), Some(rest)) => Some([(fields[0].0, a)] + rest)
      case _ => None
  }

  function ParseStrings(items: seq<Json>): Option<seq<string>> {
    if |items| == 0 then Some([])
    else
      match (items[0], ParseStrings(items[1..]))
      case (JString(s), Some(rest)) => Some([s] + rest)
      case _ => None
  }

  /** A literal field: absent (it has a default) or exactly the literal. */
  predicate LiteralOk(j: Json, key: string, literal: string) {
    Member(j, key).None? || Member(j, key) == Some(JString(literal))
  }

  /** Validation of a parameter schema by alias. A missing
      `additionalProperties` takes its default, false. */
  function ParseParameters(j: Json): (r: Option<Parameters>)
    ensures r.Some? && Member(j, AdditionalPropertiesKey).None? ==> !r.value.additionalProperties
  {
    if !LiteralOk(j, TypeKey, ObjectLiteral) then None
    else
      match (Member(j, PropertiesKey), Member(j, RequiredKey), Member(j, AdditionalPropertiesKey))
      case (Some(JObject(fs)), Some(JArray(items)), extra) =>
        (match (ParseProperties(fs), ParseStrings(items))
         case (Some(props), Some(req)) =>
           (match extra
            case None => Some(Parameters(props, req))
            case Some(JBool(b)) => Some(Parameters(props, req, b))
            case Some(_) => None)
         case _ => None)
      case _ => None
  }

  function ParseFunction(j: Json): Option<Function> {
    match (StringMember(j, NameKey), StringMember(j, DescriptionKey), Member(j, ParametersKey))
    case (Some(n), Some(d), Some(pj)) =>
      (match ParseParameters(pj)
       case Some(p) => Some(Function(n, d, p))
       case None => None)
    case _ => None
  }

  /** Validation of a dumped tool schema back into the model. */
  function ParseTool(j: Json): Option<Tool> {
    if !LiteralOk(j, TypeKey, FunctionLiteral) then None
    else
      match Member(j, FunctionKey)
      case Some(fj) =>
        (match ParseFunction(fj)
         case Some(f) => Some(Tool(f))
         case None => None)
      case None => None
  }

  lemma ArgumentRoundTrip(a: Argument)
    ensures ParseArgument(ArgumentJson(a)) == Some(a)
  {
    var fs := ArgumentJson(a).fields;
    Dicts.GetFirst(fs, 0, "type");
    Dicts.GetFirst(fs, 1, "description");
    TypeNamesBijective(a.ty, TypeName(a.ty));
  }

  lemma {:induction false} PropertiesRoundTrip(props: Properties)
    ensures ParseProperties(PropertiesJson(props)) == Some(props)
  {
    if |props| > 0 {
      PropertiesRoundTrip(props[1..]);
      ArgumentRoundTrip(props[0].1);
      assert PropertiesJson(props)[1..] == PropertiesJson(props[1..]);
      assert [(props[0].0, props[0].1)] + props[1..] == props;
    }
  }

  lemma {:induction false} StringsRoundTrip(ss: seq<string>)
    ensures ParseStrings(StringsJson(ss)) == Some(ss)
  {
    if |ss| > 0 {
      StringsRoundTrip(ss[1..]);
      assert StringsJson(ss)[1..] == StringsJson(ss[1..]);
      assert [ss[0]] + ss[1..] == ss;
    }
  }

  /** Lookup in an object laid out as a dumped parameter schema. */
  lemma ParameterFields(t: Json, props: Json, req: Json, additional: Json)
    ensures var o := JObject([(TypeKey, t), (PropertiesKey, props), (RequiredKey, req), (AdditionalPropertiesKey, additional)]);
      && Member(o, TypeKey) == Some(t)
      && Member(o, PropertiesKey) == Some(props)
      && Member(o, RequiredKey) == Some(req)
      && Member(o, AdditionalPropertiesKey) == Some(additional)
  {
    Dicts.GetOfFour(TypeKey, PropertiesKey, RequiredKey, AdditionalPropertiesKey, t, props, req, additional);
  }

  /** What each aliased key of a dumped parameter schema holds. */
  lemma ParametersMembers(p: Parameters)
    ensures Member(ParametersJson(p), TypeKey) == Some(JString(ObjectLiteral))
    ensures Member(ParametersJson(p), PropertiesKey) == Some(JObject(PropertiesJson(p.properties)))
    ensures Member(ParametersJson(p), RequiredKey) == Some(JArray(StringsJson(p.required)))
    ensures Member(ParametersJson(p), AdditionalPropertiesKey) == Some(JBool(p.additionalProperties))
  {
    ParameterFields(JString(ObjectLiteral), JObject(PropertiesJson(p.properties)),
                    JArray(StringsJson(p.required)), JBool(p.additionalProperties));
  }

  lemma ParametersRoundTrip(p: Parameters)
    ensures ParseParameters(ParametersJson(p)) == Some(p)
  {
    ParametersMembers(p);
    PropertiesRoundTrip(p.properties);
    StringsRoundTrip(p.required);
  }

  /** Lookup in an object laid out as a dumped function. */
  lemma FunctionFields(name: Json, description: Json, parameters: Json)
    ensures var o := JObject([(NameKey, name), (DescriptionKey, description), (ParametersKey, parameters)]);
      && Member(o, NameKey) == Some(name)
      && Member(o, DescriptionKey) == Some(description)
      && Member(o, ParametersKey) == Some(parameters)
  {
    var ff := [(NameKey, name), (DescriptionKey, description), (ParametersKey, parameters)];
    Dicts.GetFirst(ff, 0, NameKey);
    Dicts.GetFirst(ff, 1, DescriptionKey);
    Dicts.GetFirst(ff, 2, ParametersKey);
  }

  /** A dumped function validates back to the same name, description and
      parameters. */
  lemma FunctionRoundTrip(f: Function)
    ensures ParseFunction(FunctionJson(f)) == Some(f)
  {
    FunctionFields(JString(f.name), JString(f.description), ParametersJson(f.parameters));
    ParametersRoundTrip(f.parameters);
  }

  /** Dumping a tool schema by alias and validating the dump gives back the
      same schema: names, descriptions, properties, required names and
      `additionalProperties` all survive the wire format. */
  lemma ToolRoundTrip(t: Tool)
    ensures ParseTool(ToolJson(t)) == Some(t)
  {
    WireShape(t);
    FunctionRoundTrip(t.func);
  }
}
