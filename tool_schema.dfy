/** Tool definitions of the MCP tool registry (src/server/mcp-tools.js): the shape a
    definition must have to be registered, and the parameter validator built from a
    definition's declared parameters. The validator is a tagged union of rules, one per
    declared property, in the order the properties are declared. */
module ToolSchema {
  import opened JsValues

  /** One declared parameter, as written under `parameters.properties`. `kind` is its
      `type` (the empty string when it has none). */
  datatype PropertyDecl = PropertyDecl(
    kind: string,
    minLength: Option<nat>,
    maxLength: Option<nat>,
    enumValues: Option<seq<Value>>,
    minimum: Option<int>,
    maximum: Option<int>,
    default: Option<Value>)

  predicate DistinctNames(props: seq<(string, PropertyDecl)>) {
    forall i, j :: 0 <= i < j < |props| ==> props[i].0 != props[j].0
  }

  /** The properties of a JavaScript object, in declaration order; keys are distinct. */
  type PropertyList = props: seq<(string, PropertyDecl)> | DistinctNames(props) witness []

  datatype ParameterSchema = ParameterSchema(
    schemaType: string,
    properties: PropertyList,
    required: seq<string>,
    additionalProperties: bool)

  /** A tool definition. `returnShape` (the `returns` entry) documents the result shape:
      registration demands that it be an object, and nothing checks results against it. */
  datatype ToolDefinition = ToolDefinition(
    name: string,
    description: string,
    version: string,
    agent: string,
    parameters: ParameterSchema,
    returnShape: Value,
    executionHandler: string)

  /** The first constraint of the definition schema a definition violates. */
  datatype DefinitionError = InvalidName | InvalidDescription | InvalidVersion | InvalidParametersType | InvalidReturns

  // ---------------------------------------------------------------------------------
  // Definition validation
  // ---------------------------------------------------------------------------------

  const ToolPrefix: string := "mcp:tool."

  predicate IsIdentStart(c: char) {
    ('a' <= c <= 'z') || ('A' <= c <= 'Z') || c == '_'
  }

  predicate IsIdentChar(c: char) {
    IsIdentStart(c) || IsDigit(c)
  }

  /** `^mcp:tool\.[a-zA-Z_][a-zA-Z0-9_]*$` */
  predicate IsToolName(s: string) {
    |s| > |ToolPrefix| && s[..|ToolPrefix|] == ToolPrefix
    && IsIdentStart(s[|ToolPrefix|])
    && forall i :: |ToolPrefix| < i < |s| ==> IsIdentChar(s[i])
  }

  /** The part after the prefix: `[a-zA-Z_][a-zA-Z0-9_]*`. */
  predicate IsIdent(s: string) {
    s != [] && IsIdentStart(s[0]) && forall i :: 0 < i < |s| ==> IsIdentChar(s[i])
  }

  /** A tool name is the prefix followed by an identifier, and nothing else is one. */
  lemma ToolNameIsPattern(s: string)
    ensures IsToolName(s) <==> |s| >= |ToolPrefix| && s[..|ToolPrefix|] == ToolPrefix && IsIdent(s[|ToolPrefix|..])
  {
    if |s| >= |ToolPrefix| {
      var ident := s[|ToolPrefix|..];
      assert forall i :: 0 <= i < |ident| ==> ident[i] == s[|ToolPrefix| + i];
    }
  }

  predicate AllDigits(s: string) {
    forall i :: 0 <= i < |s| ==> IsDigit(s[i])
  }

  /** Length of the longest run of digits at the start of `s`. */
  function DigitRun(s: string): (n: nat)
    ensures n <= |s| && AllDigits(s[..n])
    ensures n < |s| ==> !IsDigit(s[n])
  {
    if s != [] && IsDigit(s[0]) then
      var n := 1 + DigitRun(s[1..]);
      assert s[..n] == [s[0]] + s[1..][..n - 1];
      n
    else 0
  }

  /** `^\d+\.\d+\.\d+$`, matched left to right the way the regular expression does. */
  predicate IsVersion(s: string) {
    var a := DigitRun(s);
    0 < a < |s| && s[a] == '.'
    && var s2 := s[a + 1..];
       var b := DigitRun(s2);
       0 < b < |s2| && s2[b] == '.'
       && var s3 := s2[b + 1..];
          0 < DigitRun(s3) == |s3|
  }

  /** The pattern read declaratively: three non-empty digit strings joined by dots. */
  ghost predicate VersionShape(s: string) {
    exists x: string, y: string, z: string
      :: s == x + "." + y + "." + z && x != [] && y != [] && z != []
         && AllDigits(x) && AllDigits(y) && AllDigits(z)
  }

  lemma {:induction false} DigitRunOf(x: string, rest: string)
    requires AllDigits(x)
    requires rest == [] || !IsDigit(rest[0])
    ensures DigitRun(x + rest) == |x|
  {
    if x != [] {
      assert (x + rest)[1..] == x[1..] + rest;
      DigitRunOf(x[1..], rest);
    }
  }

  lemma {:induction false} VersionMatchHasShape(s: string)
    requires IsVersion(s)
    ensures VersionShape(s)
  {
    var a := DigitRun(s);
    var s2 := s[a + 1..];
    var b := DigitRun(s2);
    var s3 := s2[b + 1..];
    assert s == s[..a] + "." + s2[..b] + "." + s3;
    assert s3[..DigitRun(s3)] == s3;
  }

  /** A run of digits followed by a dot: the run is read whole, the dot follows it, and
      matching goes on after the dot. */
  lemma DottedRun(x: string, rest: string)
    requires AllDigits(x) && rest != [] && rest[0] == '.'
    ensures var s := x + rest;
            DigitRun(s) == |x| && |x| < |s| && s[|x|] == '.' && s[|x| + 1..] == rest[1..]
  {
    DigitRunOf(x, rest);
    assert (x + rest)[|x|..] == rest;
  }

  lemma VersionSplit(x: string, y: string, z: string)
    ensures x + "." + y + "." + z == x + ("." + (y + ("." + z)))
  {
  }

  lemma {:induction false} ShapeIsVersionMatch(x: string, y: string, z: string)
    requires x != [] && y != [] && z != []
    requires AllDigits(x) && AllDigits(y) && AllDigits(z)
    ensures IsVersion(x + "." + y + "." + z)
  {
    var rz := "." + z;
    var ry := "." + (y + rz);
    VersionSplit(x, y, z);
    assert ry[1..] == y + rz;
    assert rz[1..] == z;
    DottedRun(x, ry);
    DottedRun(y, rz);
    assert z + "" == z;
    DigitRunOf(z, "");
  }

  /** The left-to-right matcher accepts exactly the strings of the pattern. */
  lemma VersionMatcherIsPattern(s: string)
    ensures IsVersion(s) <==> VersionShape(s)
  {
    if IsVersion(s) {
      VersionMatchHasShape(s);
    }
    if VersionShape(s) {
      var x: string, y: string, z: string :|
        s == x + "." + y + "." + z && x != [] && y != [] && z != []
        && AllDigits(x) && AllDigits(y) && AllDigits(z);
      ShapeIsVersionMatch(x, y, z);
    }
  }

  /** Validation of a definition against the registration schema; `None` when the
      definition is accepted, otherwise the first violated constraint in schema order. */
  function ValidateToolDefinition(d: ToolDefinition): (r: Option<DefinitionError>)
    ensures r.None? <==>
              IsToolName(d.name) && 10 <= |d.description| <= 500
              && IsVersion(d.version) && d.parameters.schemaType == "object" && d.returnShape.Obj?
    ensures r == Some(InvalidName) <==> !IsToolName(d.name)
    ensures r == Some(InvalidDescription) <==>
              IsToolName(d.name) && !(10 <= |d.description| <= 500)
    ensures r == Some(InvalidVersion) <==>
              IsToolName(d.name) && 10 <= |d.description| <= 500 && !IsVersion(d.version)
    ensures r == Some(InvalidParametersType) <==>
              IsToolName(d.name) && 10 <= |d.description| <= 500 && IsVersion(d.version)
              && d.parameters.schemaType != "object"
    ensures r == Some(InvalidReturns) <==>
              IsToolName(d.name) && 10 <= |d.description| <= 500 && IsVersion(d.version)
              && d.parameters.schemaType == "object" && !d.returnShape.Obj?
  {
    if !IsToolName(d.name) then Some(InvalidName)
    else if !(10 <= |d.description| <= 500) then Some(InvalidDescription)
    else if !IsVersion(d.version) then Some(InvalidVersion)
    else if d.parameters.schemaType != "object" then Some(InvalidParametersType)
    else if !d.returnShape.Obj? then Some(InvalidReturns)
    else None
  }

  // ---------------------------------------------------------------------------------
  // The parameter validator
  // ---------------------------------------------------------------------------------

  /** The check applied to one field. A string rule carries its length bounds (each only
      when declared non-zero) and its allowed values; a number rule its bounds. */
  datatype Rule =
    | StringRule(minLength: Option<nat>, maxLength: Option<nat>, allowed: Option<seq<Value>>)
    | NumberRule(minimum: Option<int>, maximum: Option<int>)
    | BooleanRule
    | ObjectRule
    | ArrayRule
    | AnyRule

  /** One field of the validator. `optional` records the `.optional()` applied to a field
      not named in `required`; nothing ever makes a field mandatory. */
  datatype FieldValidator = FieldValidator(name: string, rule: Rule, default: Option<Value>, optional: bool)

  predicate DistinctFields(vs: seq<FieldValidator>) {
    forall i, j :: 0 <= i < j < |vs| ==> vs[i].name != vs[j].name
  }

  type Validator = vs: seq<FieldValidator> | DistinctFields(vs) witness []

  datatype Violation =
    | NotAllowed
    | WrongType(expected: string)
    | TooShort(minLength: nat)
    | TooLong(maxLength: nat)
    | TooSmall(minimum: int)
    | TooLarge(maximum: int)

  datatype ParamError = NotAnObject | FieldError(field: string, violation: Violation)

  /** A length bound is applied only when it is truthy, i.e. declared and non-zero. */
  function TruthyBound(b: Option<nat>): (r: Option<nat>)
    ensures r.Some? <==> b.Some? && b.value != 0
    ensures r.Some? ==> r == b
  {
    if b.Some? && b.value != 0 then b else None
  }

  /** The rule for one declared property, chosen by its `type`: a string keeps its truthy
      length bounds and its list of allowed values, a number both bounds as declared,
      `boolean`, `object` and `array` each their own type test, and a type outside these
      five accepts anything. */
  function RuleOf(p: PropertyDecl): (r: Rule)
    ensures r.StringRule? <==> p.kind == "string"
    ensures r.NumberRule? <==> p.kind == "number"
    ensures r.BooleanRule? <==> p.kind == "boolean"
    ensures r.ObjectRule? <==> p.kind == "object"
    ensures r.ArrayRule? <==> p.kind == "array"
    ensures r.AnyRule? <==> p.kind !in ["string", "number", "boolean", "object", "array"]
    ensures r.StringRule? ==>
              r.minLength == TruthyBound(p.minLength) && r.maxLength == TruthyBound(p.maxLength)
              && r.allowed == p.enumValues
    ensures r.NumberRule? ==> r.minimum == p.minimum && r.maximum == p.maximum
  {
    match p.kind
    case "string" => StringRule(TruthyBound(p.minLength), TruthyBound(p.maxLength), p.enumValues)
    case "number" => NumberRule(p.minimum, p.maximum)
    case "boolean" => BooleanRule
    case "object" => ObjectRule
    case "array" => ArrayRule
    case _ => AnyRule
  }

  /** Checks a present value against a rule; `None` when it is accepted. A list of
      allowed values decides on its own: a listed value is accepted at once and any
      other value is refused. */
  function Check(rule: Rule, v: Value): (r: Option<Violation>)
    ensures rule.StringRule? && rule.allowed.Some? ==> (r.None? <==> v in rule.allowed.value)
    ensures rule.StringRule? && rule.allowed.None? ==>
              (r.None? <==>
                 v.Str? && (rule.minLength.None? || |v.s| >= rule.minLength.value)
                 && (rule.maxLength.None? || |v.s| <= rule.maxLength.value))
    ensures rule.NumberRule? ==>
              (r.None? <==>
                 v.Num? && (rule.minimum.None? || v.n >= rule.minimum.value)
                 && (rule.maximum.None? || v.n <= rule.maximum.value))
    ensures rule.BooleanRule? ==> (r.None? <==> v.Bool?)
    ensures rule.ObjectRule? ==> (r.None? <==> v.Obj?)
    ensures rule.ArrayRule? ==> (r.None? <==> v.Arr?)
    ensures rule.AnyRule? ==> r.None?
  {
    match rule
    case StringRule(minLength, maxLength, allowed) =>
      if allowed.Some? then (if v in allowed.value then None else Some(NotAllowed))
      else if !v.Str? then Some(WrongType("string"))
      else if minLength.Some? && |v.s| < minLength.value then Some(TooShort(minLength.value))
      else if maxLength.Some? && |v.s| > maxLength.value then Some(TooLong(maxLength.value))
      else None
    case NumberRule(minimum, maximum) =>
      if !v.Num? then Some(WrongType("number"))
      else if minimum.Some? && v.n < minimum.value then Some(TooSmall(minimum.value))
      else if maximum.Some? && v.n > maximum.value then Some(TooLarge(maximum.value))
      else None
    case BooleanRule => if v.Bool? then None else Some(WrongType("boolean"))
    case ObjectRule => if v.Obj? then None else Some(WrongType("object"))
    case ArrayRule => if v.Arr? then None else Some(WrongType("array"))
    case AnyRule => None
  }

  /** A string property without a list of allowed values accepts exactly the strings
      within its declared length bounds; a bound of zero is no bound at all. */
  lemma StringDeclAccepts(p: PropertyDecl, s: string)
    requires p.kind == "string" && p.enumValues.None?
    ensures Check(RuleOf(p), Str(s)).None? <==>
              (p.minLength.None? || p.minLength.value == 0 || |s| >= p.minLength.value)
              && (p.maxLength.None? || p.maxLength.value == 0 || |s| <= p.maxLength.value)
  {
  }

  /** The validator built from a parameter schema: one field per declared property, in
      declaration order. */
  function BuildValidator(schema: ParameterSchema): (vs: Validator)
    ensures |vs| == |schema.properties|
    ensures forall i :: 0 <= i < |vs| ==>
              var (name, decl) := schema.properties[i];
              vs[i] == FieldValidator(name, RuleOf(decl), decl.default, name !in schema.required)
  {
    var props := schema.properties;
    seq(|props|, i requires 0 <= i < |props| =>
      FieldValidator(props[i].0, RuleOf(props[i].1), props[i].1.default, props[i].0 !in schema.required))
  }

  /** Every field present in the input passes its check, and so the input is accepted. */
  ghost predicate AllPresentAccepted(vs: seq<FieldValidator>, input: map<string, Value>) {
    forall i :: 0 <= i < |vs| && vs[i].name in input ==> Check(vs[i].rule, input[vs[i].name]).None?
  }

  ghost function Names(vs: seq<FieldValidator>): set<string> {
    set i | 0 <= i < |vs| :: vs[i].name
  }

  /** Checks the fields in order and collects the defaults of the fields the input
      omits; the first field that fails its check is reported. */
  function ValidateFields(vs: Validator, input: map<string, Value>): (r: Result<map<string, Value>, ParamError>)
    ensures r.Ok? <==> AllPresentAccepted(vs, input)
    ensures r.Err? ==> r.error.FieldError?
  {
    if vs == [] then Ok(map[])
    else
      var f := vs[0];
      var rest: Validator := vs[1..];
      assert forall i :: 1 <= i < |vs| ==> vs[i] == rest[i - 1];
      if f.name in input && Check(f.rule, input[f.name]).Some? then
        Err(FieldError(f.name, Check(f.rule, input[f.name]).value))
      else
        match ValidateFields(rest, input)
        case Err(e) => Err(e)
        case Ok(filled) =>
          Ok(if f.name !in input && f.default.Some? then filled[f.name := f.default.value] else filled)
  }

  /** What an accepted input gains: exactly the defaults of the declared fields it omits. */
  lemma {:induction false} FilledDefaults(vs: Validator, input: map<string, Value>)
    requires ValidateFields(vs, input).Ok?
    ensures var filled := ValidateFields(vs, input).value;
            && filled.Keys <= Names(vs) && filled.Keys !! input.Keys
            && (forall i :: 0 <= i < |vs| && vs[i].name !in input && vs[i].default.Some? ==>
                  vs[i].name in filled && filled[vs[i].name] == vs[i].default.value)
            && (forall n :: n in filled ==>
                  exists i :: 0 <= i < |vs| && vs[i].name == n && vs[i].default == Some(filled[n]))
  {
    if vs != [] {
      var f := vs[0];
      var rest: Validator := vs[1..];
      FilledDefaults(rest, input);
      assert forall i :: 1 <= i < |vs| ==> vs[i] == rest[i - 1];
      assert f.name !in Names(rest);
      var filled := ValidateFields(vs, input).value;
      var sub := ValidateFields(rest, input).value;
      forall n | n in filled
        ensures exists i :: 0 <= i < |vs| && vs[i].name == n && vs[i].default == Some(filled[n])
      {
        if n != f.name || !(f.name !in input && f.default.Some?) {
          var k :| 0 <= k < |rest| && rest[k].name == n && rest[k].default == Some(sub[n]);
          assert vs[k + 1] == rest[k];
        }
      }
    }
  }

  /** A refused input is refused for the first present field that fails its check. */
  lemma {:induction false} FirstFailureReported(vs: Validator, input: map<string, Value>)
    requires ValidateFields(vs, input).Err?
    ensures var e := ValidateFields(vs, input).error;
            exists i :: 0 <= i < |vs| && vs[i].name == e.field && vs[i].name in input
                        && Check(vs[i].rule, input[vs[i].name]) == Some(e.violation)
                        && AllPresentAccepted(vs[..i], input)
  {
    var f := vs[0];
    var rest: Validator := vs[1..];
    var e := ValidateFields(vs, input).error;
    if f.name in input && Check(f.rule, input[f.name]).Some? {
      assert vs[..0] == [];
    } else {
      assert ValidateFields(vs, input).Err? == ValidateFields(rest, input).Err?;
      assert e == ValidateFields(rest, input).error;
      FirstFailureReported(rest, input);
      var i :| 0 <= i < |rest| && rest[i].name == e.field && rest[i].name in input
               && Check(rest[i].rule, input[rest[i].name]) == Some(e.violation)
               && AllPresentAccepted(rest[..i], input);
      assert vs[..i + 1] == [f] + rest[..i];
      AcceptedCons(f, rest[..i], input);
      assert vs[i + 1] == rest[i];
    }
  }

  /** A field that accepts its input, in front of fields that all do. */
  lemma AcceptedCons(f: FieldValidator, ws: seq<FieldValidator>, input: map<string, Value>)
    requires f.name !in input || Check(f.rule, input[f.name]).None?
    requires AllPresentAccepted(ws, input)
    ensures AllPresentAccepted([f] + ws, input)
  {
    forall k | 0 <= k < |[f] + ws| && ([f] + ws)[k].name in input
      ensures Check(([f] + ws)[k].rule, input[([f] + ws)[k].name]).None?
    {
      if k > 0 {
        assert ([f] + ws)[k] == ws[k - 1];
      }
    }
  }

  /** Validates call parameters: they must form an object; the result is the input with
      the declared defaults filled in for the fields it omits, and nothing else added. */
  function ValidateParameters(vs: Validator, params: Value): (r: Result<Value, ParamError>)
    ensures !params.Obj? ==> r == Err(NotAnObject)
    ensures params.Obj? ==> (r.Ok? <==> AllPresentAccepted(vs, params.fields))
    ensures params.Obj? && r.Err? ==>
              ValidateFields(vs, params.fields).Err? && r.error == ValidateFields(vs, params.fields).error
    ensures r.Ok? ==> r.value.Obj? && params.Obj?
    ensures r.Ok? ==> forall n :: n in params.fields ==>
                        n in r.value.fields && r.value.fields[n] == params.fields[n]
    ensures r.Ok? ==> forall i :: 0 <= i < |vs| && vs[i].name !in params.fields && vs[i].default.Some? ==>
                        vs[i].name in r.value.fields && r.value.fields[vs[i].name] == vs[i].default.value
    ensures r.Ok? ==> forall n :: n in r.value.fields && n !in params.fields ==>
                        exists i :: 0 <= i < |vs| && vs[i].name == n && vs[i].default == Some(r.value.fields[n])
  {
    if !params.Obj? then Err(NotAnObject)
    else
      match ValidateFields(vs, params.fields)
      case Err(e) => Err(e)
      case Ok(filled) =>
        FilledDefaults(vs, params.fields);
        Ok(Obj(params.fields + filled))
  }

  /** Two validators that differ only in their `optional` marks. */
  ghost predicate SameButOptional(vs: seq<FieldValidator>, ws: seq<FieldValidator>) {
    |vs| == |ws| && forall i :: 0 <= i < |vs| ==> vs[i].(optional := ws[i].optional) == ws[i]
  }

  lemma {:induction false} OptionalMarksIgnored(vs: Validator, ws: Validator, input: map<string, Value>)
    requires SameButOptional(vs, ws)
    ensures ValidateFields(vs, input) == ValidateFields(ws, input)
  {
    if vs != [] {
      var vr: Validator := vs[1..];
      var wr: Validator := ws[1..];
      assert SameButOptional(vr, wr) by {
        forall i | 0 <= i < |vr| ensures vr[i].(optional := wr[i].optional) == wr[i] {
          assert vr[i] == vs[i + 1] && wr[i] == ws[i + 1];
        }
      }
      OptionalMarksIgnored(vr, wr, input);
      assert vs[0].name == ws[0].name && vs[0].rule == ws[0].rule && vs[0].default == ws[0].default;
    }
  }

  /** The `required` list of a schema has no effect on validation: `.required()` is never
      applied, so a field listed there may still be omitted. */
  lemma RequiredListIgnored(schema: ParameterSchema, required: seq<string>, params: Value)
    ensures ValidateParameters(BuildValidator(schema), params)
         == ValidateParameters(BuildValidator(schema.(required := required)), params)
  {
    var vs := BuildValidator(schema);
    var ws := BuildValidator(schema.(required := required));
    assert SameButOptional(vs, ws);
    if params.Obj? {
      OptionalMarksIgnored(vs, ws, params.fields);
    }
  }

  // ---------------------------------------------------------------------------------
  // The built-in tool
  // ---------------------------------------------------------------------------------

  const ConsoleHelloName: string := "mcp:tool.console_hello"

  const MessageDecl: PropertyDecl :=
    PropertyDecl("string", Some(1), Some(500), None, None, None, Some(Str("Hello World")))

  const TargetTabDecl: PropertyDecl :=
    PropertyDecl("string", None, None, Some([Str("active"), Str("all")]), None, None, Some(Str("active")))

  /** `{ type: t }` */
  function TypeOnly(t: string): Value {
    Obj(map["type" := Str(t)])
  }

  /** The result shape the built-in tool documents. */
  const ConsoleHelloReturns: Value :=
    Obj(map[
      "type" := Str("object"),
      "properties" := Obj(map[
        "success" := TypeOnly("boolean"),
        "result" := TypeOnly("string"),
        "timestamp" := TypeOnly("string"),
        "executionMetadata" := Obj(map[
          "type" := Str("object"),
          "properties" := Obj(map[
            "tabId" := TypeOnly("number"),
            "url" := TypeOnly("string"),
            "executionTime" := TypeOnly("number"),
            "agent" := TypeOnly("string")])]),
        "error" := TypeOnly("string")])])

  /** The `mcp:tool.console_hello` definition the registry registers at start-up. */
  const ConsoleHello: ToolDefinition :=
    ToolDefinition(
      ConsoleHelloName,
      "Execute console.log message in browser tab via Chrome Extension",
      "1.0.0",
      "mike",
      ParameterSchema("object", [("message", MessageDecl), ("targetTab", TargetTabDecl)], ["message"], false),
      ConsoleHelloReturns,
      "websocket_extension_call")

  lemma ConsoleHelloIsValid()
    ensures ValidateToolDefinition(ConsoleHello).None?
  {
    assert "1.0.0"[2..] == "0.0";
    assert "0.0"[2..] == "0";
  }

  /** The validator built for the built-in tool: `message` is a string of 1 to 500
      characters defaulting to "Hello World"; `targetTab` is one of "active" and "all",
      defaulting to "active"; neither is mandatory. */
  lemma ConsoleHelloValidator()
    ensures BuildValidator(ConsoleHello.parameters) == [
              FieldValidator("message", StringRule(Some(1), Some(500), None), Some(Str("Hello World")), false),
              FieldValidator("targetTab", StringRule(None, None, Some([Str("active"), Str("all")])), Some(Str("active")), true)]
  {
  }

  /** A call with no parameters gets both defaults. */
  lemma ConsoleHelloDefaults()
    ensures ValidateParameters(BuildValidator(ConsoleHello.parameters), Obj(map[]))
         == Ok(Obj(map["message" := Str("Hello World"), "targetTab" := Str("active")]))
  {
    ConsoleHelloValidator();
    var vs := BuildValidator(ConsoleHello.parameters);
    var input: map<string, Value> := map[];
    var rest: Validator := vs[1..];
    var none: Validator := rest[1..];
    assert none == [];
    assert ValidateFields(rest, input) == Ok(map["targetTab" := Str("active")]);
    assert ValidateFields(vs, input) == Ok(map["targetTab" := Str("active")][ "message" := Str("Hello World")]);
    assert input + map["targetTab" := Str("active")][ "message" := Str("Hello World")]
        == map["message" := Str("Hello World"), "targetTab" := Str("active")];
  }

  /** A message is accepted exactly when it has 1 to 500 characters. */
  lemma ConsoleHelloMessageBounds(message: string)
    ensures ValidateParameters(BuildValidator(ConsoleHello.parameters), Obj(map["message" := Str(message)])).Ok?
        <==> 1 <= |message| <= 500
  {
    ConsoleHelloValidator();
  }

  /** A target tab is accepted exactly when it is "active" or "all". */
  lemma ConsoleHelloTargetTab(tab: string)
    ensures ValidateParameters(BuildValidator(ConsoleHello.parameters), Obj(map["targetTab" := Str(tab)])).Ok?
        <==> tab == "active" || tab == "all"
  {
    ConsoleHelloValidator();
    var vs := BuildValidator(ConsoleHello.parameters);
    var input := map["targetTab" := Str(tab)];
    assert "message" !in input;
    assert Str(tab) in [Str("active"), Str("all")] <==> tab == "active" || tab == "all";
    assert AllPresentAccepted(vs, input) <==> Check(vs[1].rule, Str(tab)).None?;
  }
}
