/**
 * The data that crosses the tool-provider protocol: JSON values, tool
 * descriptors with their JSON-schema-like input schema, and the typed
 * values the argument resolver produces from command-line tokens.
 */
module Schema {
  import opened Wrappers

  /** A JSON value. Numbers are modelled by their integer value only. */
  datatype Json =
    | JNull
    | JBool(b: bool)
    | JNum(n: int)
    | JStr(s: string)
    | JArr(items: seq<Json>)
    | JObj(fields: seq<(string, Json)>)

  /** JavaScript truthiness of a JSON value. */
  predicate Truthy(j: Json) {
    match j
    case JNull => false
    case JBool(b) => b
    case JNum(n) => n != 0
    case JStr(s) => s != []
    case _ => true
  }

  /**
   * `JSON.parse`, kept uninterpreted: the parser is a parameter of every
   * operation that parses, and `None` stands for a thrown SyntaxError.
   */
  type JsonParser = string -> Option<Json>

  /** One declared property: its `type` and `description`, each possibly absent. */
  datatype PropSchema = PropSchema(ty: Option<string>, description: Option<string>)

  /** Declared properties in declaration order (the order of `Object.keys`). */
  type Props = seq<(string, PropSchema)>

  /**
   * `inputSchema`: `properties` is `None` when the field is absent, and
   * `required` is the `required` array (empty when it is absent or not an array).
   */
  datatype InputSchema = InputSchema(properties: Option<Props>, required: seq<string>)

  /** A tool descriptor as a child process reports it. */
  datatype Tool = Tool(name: string, description: Option<string>, inputSchema: Option<InputSchema>)

  /**
   * A tool argument value. `NumberOf(raw)`, `IntegerOf(raw)` and `FloatOf(raw)`
   * stand for `Number(raw)`, `parseInt(raw, 10)` and `parseFloat(raw)`,
   * whose floating-point results are not modelled.
   */
  datatype Value =
    | Str(s: string)
    | Bool(b: bool)
    | StrList(items: seq<string>)
    | NumberOf(raw: string)
    | IntegerOf(raw: string)
    | FloatOf(raw: string)
    | Parsed(json: Json)

  function Names(props: Props): (ks: seq<string>)
    ensures |ks| == |props|
    ensures forall i :: 0 <= i < |props| ==> ks[i] == props[i].0
  {
    seq(|props|, i requires 0 <= i < |props| => props[i].0)
  }

  /** `props[k]`: the schema declared for `k`, if any. */
  function Lookup(props: Props, k: string): Option<PropSchema> {
    if props == [] then None
    else if props[0].0 == k then Some(props[0].1)
    else Lookup(props[1..], k)
  }

  /** A key has a schema exactly when it is declared. */
  lemma {:induction false} LookupDeclared(props: Props, k: string)
    ensures Lookup(props, k).Some? <==> k in Names(props)
  {
    if props != [] {
      LookupDeclared(props[1..], k);
      assert Names(props) == [props[0].0] + Names(props[1..]);
    }
  }

  /** `tool.inputSchema?.properties ?? {}` */
  function PropsOf(tool: Tool): Props {
    if tool.inputSchema.Some? && tool.inputSchema.value.properties.Some?
    then tool.inputSchema.value.properties.value
    else []
  }

  /** `Array.isArray(tool.inputSchema?.required) ? tool.inputSchema.required : []` */
  function RequiredOf(tool: Tool): seq<string> {
    if tool.inputSchema.Some? then tool.inputSchema.value.required else []
  }
}
