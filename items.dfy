/**
 * The canonical item the extractor emits. In the source it is a `dict` whose
 * keys are present or absent; here every optional key is an `Option` field and
 * the `tools = 'executed'` marker is a boolean.
 */
module Items {
  import opened Wrappers
  import opened Json

  /** `{'name': …, 'args': …, 'template': …}` attached to a paired command item. */
  datatype CommandMarker = CommandMarker(name: string, args: string, template: string)

  datatype Item = Item(
    role: Json,                          // 'role' (always present)
    text: Option<string>,                // 'text'
    timestamp: Option<Json>,             // 'timestamp'
    tools: bool,                         // 'tools': 'executed'
    toolOutput: Option<string>,          // 'tool_output'
    toolName: Option<string>,            // 'tool_name'
    toolInput: Option<Json>,             // 'tool_input'
    id: string,                          // '_id'
    toolsCollapsed: Option<nat>,         // 'tools_collapsed'
    commandMarker: Option<CommandMarker> // 'command_marker'
  )

  function CommandMarkerToJson(m: CommandMarker): Json {
    JObj(map["name" := JStr(m.name), "args" := JStr(m.args), "template" := JStr(m.template)])
  }

  function CommandMarkerFromJson(v: Json): Option<CommandMarker> {
    if v.JObj? && "name" in v.o && "args" in v.o && "template" in v.o
       && v.o["name"].JStr? && v.o["args"].JStr? && v.o["template"].JStr?
    then Some(CommandMarker(v.o["name"].s, v.o["args"].s, v.o["template"].s))
    else None
  }

  /** The keys an item's `dict` may carry. */
  const ItemKeys: set<string> := {"role", "_id", "text", "timestamp", "tools", "tool_output",
                                  "tool_name", "tool_input", "tools_collapsed", "command_marker"}

  function StrField(v: Option<string>): Option<Json> {
    if v.Some? then Some(JStr(v.value)) else None
  }

  /** The value stored under `key` in the item's `dict`, or `None` when the key is absent. */
  function Field(x: Item, key: string): Option<Json> {
    match key
    case "role" => Some(x.role)
    case "_id" => Some(JStr(x.id))
    case "text" => StrField(x.text)
    case "timestamp" => x.timestamp
    case "tools" => if x.tools then Some(JStr("executed")) else None
    case "tool_output" => StrField(x.toolOutput)
    case "tool_name" => StrField(x.toolName)
    case "tool_input" => x.toolInput
    case "tools_collapsed" => if x.toolsCollapsed.Some? then Some(JNum(x.toolsCollapsed.value)) else None
    case "command_marker" => if x.commandMarker.Some? then Some(CommandMarkerToJson(x.commandMarker.value)) else None
    case _ => None
  }

  /** The item as the `dict` that `json.dumps` serializes. */
  function ItemToJson(x: Item): Json {
    JObj(map k | k in ItemKeys && Field(x, k).Some? :: Field(x, k).value)
  }

  /** An optional string field read back: `None` when the key holds something else. */
  function ReadStr(d: map<string, Json>, key: string): Option<Option<string>> {
    if key !in d then Some(None)
    else if d[key].JStr? then Some(Some(d[key].s))
    else None
  }

  function ReadValue(d: map<string, Json>, key: string): Option<Json> {
    if key in d then Some(d[key]) else None
  }

  function ReadCollapsed(d: map<string, Json>): Option<Option<nat>> {
    if "tools_collapsed" !in d then Some(None)
    else if d["tools_collapsed"].JNum? && d["tools_collapsed"].n >= 0 then Some(Some(d["tools_collapsed"].n as nat))
    else None
  }

  function ReadMarker(d: map<string, Json>): Option<Option<CommandMarker>> {
    if "command_marker" !in d then Some(None)
    else if CommandMarkerFromJson(d["command_marker"]).Some? then Some(CommandMarkerFromJson(d["command_marker"]))
    else None
  }

  /** Reads an item back from its `dict` form; `None` for anything `ItemToJson` cannot produce. */
  function ItemFromJson(v: Json): Option<Item> {
    if !v.JObj? then None
    else
      var d := v.o;
      var text := ReadStr(d, "text");
      var output := ReadStr(d, "tool_output");
      var name := ReadStr(d, "tool_name");
      var collapsed := ReadCollapsed(d);
      var marker := ReadMarker(d);
      var toolsOk := "tools" !in d || d["tools"] == JStr("executed");
      if "role" in d && "_id" in d && d["_id"].JStr? && toolsOk
         && text.Some? && output.Some? && name.Some? && collapsed.Some? && marker.Some?
      then Some(Item(d["role"], text.value, ReadValue(d, "timestamp"), "tools" in d,
                     output.value, name.value, ReadValue(d, "tool_input"), d["_id"].s,
                     collapsed.value, marker.value))
      else None
  }

  /** A key of the `dict` form is present exactly when the item has that field, holding its value. */
  lemma ItemToJsonField(x: Item, k: string)
    requires k in ItemKeys
    ensures (k in ItemToJson(x).o) == Field(x, k).Some?
    ensures k in ItemToJson(x).o ==> ItemToJson(x).o[k] == Field(x, k).value
  {
  }

  /** The mandatory keys, the marker and the text fields read back as the item holds them. */
  lemma ItemFieldsReadBackA(x: Item)
    ensures var d := ItemToJson(x).o;
      && "role" in d && d["role"] == x.role
      && "_id" in d && d["_id"] == JStr(x.id)
      && ("tools" in d) == x.tools && ("tools" in d ==> d["tools"] == JStr("executed"))
      && ReadStr(d, "text") == Some(x.text)
      && ReadStr(d, "tool_output") == Some(x.toolOutput)
  {
    ItemToJsonField(x, "role");
    ItemToJsonField(x, "_id");
    ItemToJsonField(x, "tools");
    ItemToJsonField(x, "text");
    ItemToJsonField(x, "tool_output");
  }

  /** The remaining optional fields read back as the item holds them. */
  lemma ItemFieldsReadBackB(x: Item)
    ensures var d := ItemToJson(x).o;
      && ReadStr(d, "tool_name") == Some(x.toolName)
      && ReadValue(d, "timestamp") == x.timestamp
      && ReadValue(d, "tool_input") == x.toolInput
      && ReadCollapsed(d) == Some(x.toolsCollapsed)
      && ReadMarker(d) == Some(x.commandMarker)
  {
    ItemToJsonField(x, "tool_name");
    ItemToJsonField(x, "timestamp");
    ItemToJsonField(x, "tool_input");
    ItemToJsonField(x, "tools_collapsed");
    ItemToJsonField(x, "command_marker");
    if x.commandMarker.Some? {
      assert CommandMarkerFromJson(CommandMarkerToJson(x.commandMarker.value)) == x.commandMarker;
    }
  }

  /** Every field of an item survives its `dict` form: the JSONL output loses nothing. */
  lemma ItemJsonRoundTrip(x: Item)
    ensures ItemFromJson(ItemToJson(x)) == Some(x)
  {
    ItemFieldsReadBackA(x);
    ItemFieldsReadBackB(x);
  }
}
