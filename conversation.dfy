/**
 * The extraction state machine of `extract_essentials`
 * (plugins/claude-code-team-plugin/lib/extract_conversation.py): records are read one at a
 * time, turned into candidate items, and either buffered (tool "executed" markers), held
 * back (slash-command markers waiting for their template), or filtered into the output.
 *
 * `StepSpec`/`FinishSpec` say what one record and the end of the stream do to the state;
 * the `Extractor` class does it in place and is proved to agree with them.
 */
module Conversation {
  import opened Wrappers
  import opened Strings
  import opened Json
  import opened Items
  import opened Truncation
  import opened ExtractionHelpers

  /** One line of the input file: `Malformed` when `json.loads` rejects it. */
  datatype Record = Malformed | Parsed(v: Json)

  /** The command-line switches and the foreign functions the extractor calls. */
  datatype Config = Config(flags: Flags, f: Foreign)

  // ---------------------------------------------------------- records that do not crash

  /** The content list as the record's code touches it: every `text` value is a string, and
      with `--tools` every `tool_use` name is a string and every id used as a key is hashable. */
  predicate ContentOk(c: Config, content: seq<Json>) {
    && (forall i :: 0 <= i < |content| ==> TextIsString(content[i]))
    && (c.flags.includeTools ==>
          && (forall i :: 0 <= i < |content| ==> ToolUseNameOk(content[i]))
          && (forall t :: t in FindToolUseItems(content) && Truthy(t.id) ==> Hashable(t.id))
          && (Truthy(FindToolResultId(content)) ==> Hashable(FindToolResultId(content))))
  }

  /** A list-valued `toolUseResult` has string `text` values. */
  predicate ToolResultOk(obj: map<string, Json>) {
    "toolUseResult" in obj && obj["toolUseResult"].JArr? ==>
      forall i :: 0 <= i < |obj["toolUseResult"].a| ==> TextIsString(obj["toolUseResult"].a[i])
  }

  /** A record the source processes without raising: a malformed line, or a JSON object that is
      a summary or whose message, content and tool result have the shapes the code assumes. */
  predicate Processable(c: Config, r: Record) {
    r.Malformed? ||
    (r.v.JObj? &&
      (Get(r.v.o, "type") == JStr("summary") ||
        (MessageShapeOk(r.v.o) &&
          (Truthy(Get(r.v.o, "message")) ==>
            ContentOk(c, ContentOf(GetMessageContent(r.v.o))) && ToolResultOk(r.v.o)))))
  }

  // ------------------------------------------------------------ tool registration

  /** The truthy ids among `uses`: the keys registering them adds. */
  function RegisteredIds(uses: seq<ToolUse>): (ids: set<Json>)
    ensures forall i :: 0 <= i < |uses| && Truthy(uses[i].id) ==> uses[i].id in ids
    ensures forall k :: k in ids ==> Truthy(k)
    decreases |uses|
  {
    if uses == [] then {}
    else
      var n := |uses| - 1;
      var prev := RegisteredIds(uses[..n]);
      assert forall i :: 0 <= i < n ==> uses[..n][i] == uses[i];
      if Truthy(uses[n].id) then prev + {uses[n].id} else prev
  }

  /** The registered ids are exactly the truthy ids some use carries. */
  lemma {:induction false} RegisteredIdsExact(uses: seq<ToolUse>, k: Json)
    ensures k in RegisteredIds(uses) <==> Truthy(k) && exists i :: 0 <= i < |uses| && uses[i].id == k
    decreases |uses|
  {
    if uses != [] {
      var n := |uses| - 1;
      RegisteredIdsExact(uses[..n], k);
      if k in RegisteredIds(uses) && k != uses[n].id {
        assert k in RegisteredIds(uses[..n]);
        var i :| 0 <= i < n && uses[..n][i].id == k;
        assert uses[i].id == k;
      }
      if Truthy(k) && exists i :: 0 <= i < |uses| && uses[i].id == k {
        var i :| 0 <= i < |uses| && uses[i].id == k;
        assert uses[i].id in RegisteredIds(uses);
      }
    }
  }

  /** `pending_tool_names` after registering `uses` in order. */
  function RegisterNames(names: map<Json, string>, uses: seq<ToolUse>): map<Json, string>
    decreases |uses|
  {
    if uses == [] then names
    else
      var prev := RegisterNames(names, uses[..|uses| - 1]);
      var u := uses[|uses| - 1];
      if Truthy(u.id) then prev[u.id := u.name] else prev
  }

  /** Registering adds exactly the truthy ids, every registered id maps to the name of its last
      use, and every other key keeps its old name. */
  lemma {:induction false} RegisterNamesContents(names: map<Json, string>, uses: seq<ToolUse>)
    ensures var r := RegisterNames(names, uses);
      && r.Keys == names.Keys + RegisteredIds(uses)
      && (forall k :: k in names && k !in RegisteredIds(uses) ==> r[k] == names[k])
      && (forall i :: 0 <= i < |uses| && Truthy(uses[i].id) && (forall j :: i < j < |uses| ==> uses[j].id != uses[i].id)
            ==> r[uses[i].id] == uses[i].name)
    decreases |uses|
  {
    if uses != [] {
      var n := |uses| - 1;
      RegisterNamesContents(names, uses[..n]);
      assert forall i :: 0 <= i < n ==> uses[..n][i] == uses[i];
    }
  }

  /** `pending_tool_inputs` after registering `uses`: written like the names, never read. */
  function RegisterInputs(inputs: map<Json, Json>, uses: seq<ToolUse>): (r: map<Json, Json>)
    ensures inputs.Keys <= r.Keys
    decreases |uses|
  {
    if uses == [] then inputs
    else
      var n := |uses| - 1;
      var prev := RegisterInputs(inputs, uses[..n]);
      if Truthy(uses[n].id) then prev[uses[n].id := uses[n].input] else prev
  }

  /** The index of the last use with a truthy id (the one whose name and input the loop keeps),
      or -1. */
  function LastRegistered(uses: seq<ToolUse>): (k: int)
    ensures -1 <= k < |uses|
    ensures k >= 0 ==> Truthy(uses[k].id)
    ensures forall j :: k < j < |uses| ==> !Truthy(uses[j].id)
    decreases |uses|
  {
    if uses == [] then -1
    else if Truthy(uses[|uses| - 1].id) then |uses| - 1
    else LastRegistered(uses[..|uses| - 1])
  }

  /** Registering one more use: the unfolding the registration loop needs. */
  lemma RegisterOneMore(names: map<Json, string>, inputs: map<Json, Json>, uses: seq<ToolUse>, i: nat)
    requires i < |uses|
    ensures var u := uses[i];
      && RegisterNames(names, uses[..i + 1])
           == (if Truthy(u.id) then RegisterNames(names, uses[..i])[u.id := u.name] else RegisterNames(names, uses[..i]))
      && RegisterInputs(inputs, uses[..i + 1])
           == (if Truthy(u.id) then RegisterInputs(inputs, uses[..i])[u.id := u.input] else RegisterInputs(inputs, uses[..i]))
      && LastRegistered(uses[..i + 1]) == (if Truthy(u.id) then i else LastRegistered(uses[..i]))
  {
    assert uses[..i + 1][..i] == uses[..i];
  }

  /** The registration loop after `i` uses: the registries and the kept name and input. */
  predicate Registered(names0: map<Json, string>, inputs0: map<Json, Json>, uses: seq<ToolUse>, i: nat,
                       names: map<Json, string>, inputs: map<Json, Json>,
                       toolName: Option<string>, toolInput: Option<Json>)
  {
    && i <= |uses|
    && names == RegisterNames(names0, uses[..i])
    && inputs == RegisterInputs(inputs0, uses[..i])
    && var k := LastRegistered(uses[..i]);
       && toolName == (if k >= 0 then Some(uses[k].name) else None)
       && toolInput == (if k >= 0 then Some(uses[k].input) else None)
  }

  /** One iteration of the registration loop keeps `Registered`. */
  lemma RegisterStep(names0: map<Json, string>, inputs0: map<Json, Json>, uses: seq<ToolUse>, i: nat,
                     names: map<Json, string>, inputs: map<Json, Json>,
                     toolName: Option<string>, toolInput: Option<Json>)
    requires i < |uses| && Registered(names0, inputs0, uses, i, names, inputs, toolName, toolInput)
    ensures var u := uses[i];
      if Truthy(u.id)
      then Registered(names0, inputs0, uses, i + 1, names[u.id := u.name], inputs[u.id := u.input],
                      Some(u.name), Some(u.input))
      else Registered(names0, inputs0, uses, i + 1, names, inputs, toolName, toolInput)
  {
    RegisterOneMore(names0, inputs0, uses, i);
  }

  /** The registries after one record, and the record's `tool_name` and `tool_input`. */
  datatype ToolInfo = ToolInfo(names: map<Json, string>, inputs: map<Json, Json>,
                               name: Option<string>, input: Option<Json>)

  /** The `--tools` block: register the record's tool uses, then let a tool result whose id is
      registered name the tool. Without `--tools` nothing is registered or named. */
  function ScanTools(c: Config, names: map<Json, string>, inputs: map<Json, Json>,
                     content: seq<Json>): (r: ToolInfo)
    requires ContentOk(c, content)
  {
    if !c.flags.includeTools then ToolInfo(names, inputs, None, None)
    else
      var uses := FindToolUseItems(content);
      var names' := RegisterNames(names, uses);
      var k := LastRegistered(uses);
      var rid := FindToolResultId(content);
      var name :=
        if Truthy(rid) && rid in names' then Some(names'[rid])
        else if k >= 0 then Some(uses[k].name)
        else None;
      ToolInfo(names', RegisterInputs(inputs, uses), name, if k >= 0 then Some(uses[k].input) else None)
  }

  // ------------------------------------------------------------ the candidate item

  /** The `text` field: a string `content` as it is (even empty); otherwise the joined texts of a
      non-empty content list, when they are non-empty. */
  function TextOf(msg: map<string, Json>, content: seq<Json>): (r: Option<string>)
    requires forall i :: 0 <= i < |content| ==> TextIsString(content[i])
    ensures Get(msg, "content").JStr? ==> r == Some(Get(msg, "content").s)
    ensures r.Some? && !Get(msg, "content").JStr? ==> r.value != "" && r == ExtractTextsFromContent(content)
    ensures var t := ExtractTextsFromContent(content);
      !Get(msg, "content").JStr? && content != [] && t.Some? && t.value != "" ==> r == t
    ensures !Get(msg, "content").JStr? && content == [] ==> r.None?
  {
    var raw := Get(msg, "content");
    if raw.JStr? then Some(raw.s)
    else if content != [] then
      var t := ExtractTextsFromContent(content);
      if t.Some? && t.value != "" then t else None
    else None
  }

  /** What `toolUseResult` contributes: nothing, `tools = 'executed'`, or a `tool_output`. */
  datatype ResultField = NoResult | Executed | Output(s: string)

  /** The `toolUseResult` branch, with `tool_name` (possibly empty) passed to the binary summary. */
  function ResultFieldOf(f: Foreign, obj: map<string, Json>, toolName: Option<string>): (r: ResultField)
    requires ToolResultOk(obj)
  {
    if "toolUseResult" !in obj then NoResult
    else
      var v := obj["toolUseResult"];
      match v
      case JNull => Executed
      case JStr(s) => Output(TruncateBinaryContent(f, s, toolName))
      case JObj(_) => Output(TruncateBinaryContent(f, f.dumpsIndented(v), toolName))
      case JArr(a) =>
        var t := ExtractTextsFromContent(a);
        if t.Some? && t.value != "" then Output(TruncateBinaryContent(f, t.value, toolName)) else Executed
      case _ => Executed
  }

  /** The `extracted` dict built for a record with a message, `_id` included. */
  function BuildItem(f: Foreign, obj: map<string, Json>, mc: MessageContent,
                     toolName: Option<string>, toolInput: Option<Json>): (x: Item)
    requires mc.Message?
    requires forall i :: 0 <= i < |mc.content| ==> TextIsString(mc.content[i])
    requires ToolResultOk(obj)
    ensures x.id == MessageId(f, x)
    ensures x.toolsCollapsed.None? && x.commandMarker.None?
    ensures x.toolName.Some? <==> toolName.Some? && toolName.value != ""
    ensures x.toolInput.Some? <==> toolInput.Some? && Truthy(toolInput.value)
    ensures x.timestamp.Some? <==> "timestamp" in obj
  {
    var res := ResultFieldOf(f, obj, toolName);
    var x := Item(
      GetOr(mc.msg, "role", JStr("unknown")),
      TextOf(mc.msg, mc.content),
      if "timestamp" in obj then Some(obj["timestamp"]) else None,
      res.Executed?,
      if res.Output? then Some(res.s) else None,
      if toolName.Some? && toolName.value != "" then toolName else None,
      if toolInput.Some? && Truthy(toolInput.value) then toolInput else None,
      "", None, None);
    MessageIdFields(f, x, x.(id := ""));
    x.(id := MessageId(f, x))
  }

  /** The item's role (default `unknown`), its text, and the values of its timestamp, tool name
      and tool input. */
  lemma BuildItemFields(f: Foreign, obj: map<string, Json>, mc: MessageContent,
                        toolName: Option<string>, toolInput: Option<Json>)
    requires mc.Message?
    requires forall i :: 0 <= i < |mc.content| ==> TextIsString(mc.content[i])
    requires ToolResultOk(obj)
    ensures var x := BuildItem(f, obj, mc, toolName, toolInput);
      && x.role == GetOr(mc.msg, "role", JStr("unknown"))
      && x.text == TextOf(mc.msg, mc.content)
      && (x.timestamp.Some? ==> x.timestamp.value == obj["timestamp"])
      && (x.toolName.Some? ==> x.toolName == toolName)
      && (x.toolInput.Some? ==> x.toolInput == toolInput)
  {
  }

  /** `toolUseResult` is mapped to exactly one of `tools` and `tool_output` when present, to
      neither when absent: `null`, a non-container scalar and a list without text give
      `executed`; a string, a dict and a list with text give a (summarised) output. */
  lemma ToolResultMapping(f: Foreign, obj: map<string, Json>, mc: MessageContent,
                          toolName: Option<string>, toolInput: Option<Json>)
    requires mc.Message?
    requires forall i :: 0 <= i < |mc.content| ==> TextIsString(mc.content[i])
    requires ToolResultOk(obj)
    ensures var x := BuildItem(f, obj, mc, toolName, toolInput);
      && !(x.tools && x.toolOutput.Some?)
      && ("toolUseResult" !in obj ==> !x.tools && x.toolOutput.None?)
      && ("toolUseResult" in obj ==> x.tools || x.toolOutput.Some?)
      && ("toolUseResult" in obj && obj["toolUseResult"].JStr? ==>
            x.toolOutput == Some(TruncateBinaryContent(f, obj["toolUseResult"].s, toolName)))
      && ("toolUseResult" in obj && obj["toolUseResult"].JObj? ==>
            x.toolOutput == Some(TruncateBinaryContent(f, f.dumpsIndented(obj["toolUseResult"]), toolName)))
      && ("toolUseResult" in obj && obj["toolUseResult"].JArr? ==>
            (x.tools <==> ExtractTextsFromContent(obj["toolUseResult"].a) in {None, Some("")}))
      && ("toolUseResult" in obj && obj["toolUseResult"].JArr? && !x.tools ==>
            x.toolOutput == Some(TruncateBinaryContent(f, ExtractTextsFromContent(obj["toolUseResult"].a).value, toolName)))
      && ("toolUseResult" in obj && obj["toolUseResult"] in {JNull, JBool(true), JBool(false)} ==> x.tools)
      && ("toolUseResult" in obj && obj["toolUseResult"].JNum? ==> x.tools)
  {
  }

  // ------------------------------------------------------------ the state machine

  /** `pending_marker`: the marker item and its parsed name and args (the stored timestamp is
      never read, so it is not kept). */
  datatype PendingMarker = PendingMarker(item: Item, name: string, args: string)

  /** Everything `extract_essentials` carries from one record to the next. */
  datatype ExtractState = ExtractState(
    pending: Option<PendingMarker>,
    buffer: seq<Item>,
    names: map<Json, string>,
    inputs: map<Json, Json>,
    output: seq<Item>)

  const Initial := ExtractState(None, [], map[], map[], [])

  /** The items a buffer of "executed" markers flushes to: itself when it holds one, else a copy
      of its first item counting the run, without the `tools` key. */
  function Collapse(buffer: seq<Item>): (r: seq<Item>)
    ensures |r| == if buffer == [] then 0 else 1
    ensures |buffer| == 1 ==> r == buffer
    ensures |buffer| >= 2 ==> !r[0].tools && r[0].toolsCollapsed == Some(|buffer|)
    ensures |buffer| >= 2 ==> r[0].(tools := buffer[0].tools, toolsCollapsed := buffer[0].toolsCollapsed) == buffer[0]
  {
    if |buffer| == 0 then []
    else if |buffer| == 1 then buffer
    else [buffer[0].(tools := false, toolsCollapsed := Some(|buffer|))]
  }

  /** The items `should_include` lets through, in order. */
  function Emitted(fl: Flags, xs: seq<Item>): seq<Item>
  {
    if xs == [] then []
    else (if ShouldInclude(fl, xs[0]) then [xs[0]] else []) + Emitted(fl, xs[1..])
  }

  /** Every item let through passes the filter and comes from the input, and every input item
      that passes is let through. */
  lemma {:induction false} EmittedFilters(fl: Flags, xs: seq<Item>)
    ensures var r := Emitted(fl, xs);
      && |r| <= |xs|
      && (forall i :: 0 <= i < |r| ==> ShouldInclude(fl, r[i]) && r[i] in xs)
      && (forall x :: x in xs && ShouldInclude(fl, x) ==> x in r)
    decreases |xs|
  {
    if xs != [] {
      EmittedFilters(fl, xs[1..]);
      var h := if ShouldInclude(fl, xs[0]) then [xs[0]] else [];
      var rest := Emitted(fl, xs[1..]);
      assert Emitted(fl, xs) == h + rest;
      forall i | 0 <= i < |h + rest| ensures ShouldInclude(fl, (h + rest)[i]) && (h + rest)[i] in xs {
        if i >= |h| {
          assert (h + rest)[i] == rest[i - |h|];
          assert rest[i - |h|] in xs[1..];
        }
      }
      forall x | x in xs && ShouldInclude(fl, x) ensures x in h + rest {
        if x != xs[0] {
          assert x in xs[1..];
        }
      }
    }
  }

  /** One item is let through exactly when `should_include` accepts it. */
  lemma EmittedSingle(fl: Flags, x: Item)
    ensures Emitted(fl, [x]) == if ShouldInclude(fl, x) then [x] else []
  {
  }

  /** The filter distributes over concatenation: with the one-item cases this fixes the items
      let through, their order and their multiplicity. */
  lemma {:induction false} EmittedAppend(fl: Flags, a: seq<Item>, b: seq<Item>)
    ensures Emitted(fl, a + b) == Emitted(fl, a) + Emitted(fl, b)
    decreases |a|
  {
    if a != [] {
      EmittedAppend(fl, a[1..], b);
      var ab := a + b;
      assert ab[1..] == a[1..] + b;
      assert ab[0] == a[0];
      var h := if ShouldInclude(fl, a[0]) then [a[0]] else [];
      assert Emitted(fl, ab) == h + Emitted(fl, ab[1..]);
      assert Emitted(fl, a) == h + Emitted(fl, a[1..]);
    } else {
      assert a + b == b;
    }
  }

  /** The marker item paired with its template: its text gives way to the command marker. */
  function Paired(m: PendingMarker, template: string): Item {
    m.item.(text := None, commandMarker := Some(CommandMarker(m.name, m.args, template)))
  }

  /** The state once the buffer has been flushed into the output. */
  function Flushed(fl: Flags, s: ExtractState): ExtractState {
    s.(buffer := [], output := s.output + Emitted(fl, Collapse(s.buffer)))
  }

  /** What a non-"executed" item does after the flush: become the pending marker, complete the
      pending marker as its template, or be output on its own. */
  function Route(fl: Flags, s: ExtractState, x: Item): ExtractState {
    if x.text.Some? && IsCommandMarker(x.text.value) && ParseCommandInfo(x.text.value).Some? then
      var info := ParseCommandInfo(x.text.value).value;
      s.(pending := Some(PendingMarker(x, info.0, info.1)))
    else if s.pending.Some? && x.text.Some? then
      s.(pending := None, output := s.output + Emitted(fl, [Paired(s.pending.value, x.text.value)]))
    else if x.text.Some? || x.toolOutput.Some? || x.toolName.Some? then
      s.(output := s.output + Emitted(fl, [x]))
    else s
  }

  /** What happens to a non-summary item once it is built. */
  function Dispatch(fl: Flags, s: ExtractState, x: Item): ExtractState {
    if x.tools then s.(buffer := s.buffer + [x]) else Route(fl, Flushed(fl, s), x)
  }

  /** One iteration of the record loop. */
  function StepSpec(c: Config, s: ExtractState, r: Record): ExtractState
    requires Processable(c, r)
  {
    if r.Malformed? then s
    else if Get(r.v.o, "type") == JStr("summary") then s
    else
      var obj := r.v.o;
      var mc := GetMessageContent(obj);
      var info := ScanTools(c, s.names, s.inputs, ContentOf(mc));
      var s1 := s.(names := info.names, inputs := info.inputs);
      if mc.NoMessage? then s1
      else Dispatch(c.flags, s1, BuildItem(c.f, obj, mc, info.name, info.input))
  }

  /** The end of the stream: the buffer is flushed, a pending marker is dropped. */
  function FinishSpec(c: Config, s: ExtractState): seq<Item> {
    s.output + Emitted(c.flags, Collapse(s.buffer))
  }

  /** The state after the loop has seen `rs`. */
  function Run(c: Config, s: ExtractState, rs: seq<Record>): ExtractState
    requires forall i :: 0 <= i < |rs| ==> Processable(c, rs[i])
    decreases |rs|
  {
    if rs == [] then s
    else StepSpec(c, Run(c, s, rs[..|rs| - 1]), rs[|rs| - 1])
  }

  /** `extract_essentials` on a whole file. */
  function Extract(c: Config, rs: seq<Record>): seq<Item>
    requires forall i :: 0 <= i < |rs| ==> Processable(c, rs[i])
  {
    FinishSpec(c, Run(c, Initial, rs))
  }

  // ------------------------------------------------------------ the imperative extractor

  /** The loop of `extract_essentials` with its five local variables as fields. */
  class Extractor {
    const config: Config
    var pendingMarker: Option<PendingMarker>
    var toolMarkerBuffer: seq<Item>
    var pendingToolNames: map<Json, string>
    var pendingToolInputs: map<Json, Json>
    var outputLines: seq<Item>

    function State(): ExtractState
      reads this
    {
      ExtractState(pendingMarker, toolMarkerBuffer, pendingToolNames, pendingToolInputs, outputLines)
    }

    constructor (c: Config)
      ensures config == c && State() == Initial
    {
      config := c;
      pendingMarker := None;
      toolMarkerBuffer := [];
      pendingToolNames := map[];
      pendingToolInputs := map[];
      outputLines := [];
    }

    /** The flush written out twice in the source: append what the buffer collapses to. */
    method EmitToolMarkers()
      modifies this
      ensures outputLines == old(outputLines) + Emitted(config.flags, Collapse(old(toolMarkerBuffer)))
      ensures pendingMarker == old(pendingMarker) && toolMarkerBuffer == old(toolMarkerBuffer)
      ensures pendingToolNames == old(pendingToolNames) && pendingToolInputs == old(pendingToolInputs)
    {
      if |toolMarkerBuffer| == 1 {
        if ShouldInclude(config.flags, toolMarkerBuffer[0]) {
          outputLines := outputLines + [toolMarkerBuffer[0]];
        }
      } else if |toolMarkerBuffer| >= 2 {
        var collapsed := toolMarkerBuffer[0].(tools := false, toolsCollapsed := Some(|toolMarkerBuffer|));
        if ShouldInclude(config.flags, collapsed) {
          outputLines := outputLines + [collapsed];
        }
      }
    }

    /** The `--tools` block: registers the record's tool uses and returns its tool name and input. */
    method RegisterTools(content: seq<Json>) returns (toolName: Option<string>, toolInput: Option<Json>)
      requires config.flags.includeTools && ContentOk(config, content)
      modifies this
      ensures var info := ScanTools(config, old(pendingToolNames), old(pendingToolInputs), content);
        && pendingToolNames == info.names && pendingToolInputs == info.inputs
        && toolName == info.name && toolInput == info.input
      ensures pendingMarker == old(pendingMarker) && toolMarkerBuffer == old(toolMarkerBuffer)
      ensures outputLines == old(outputLines)
    {
      toolName := None;
      toolInput := None;
      var uses := FindToolUseItems(content);
      var i := 0;
      while i < |uses|
        invariant Registered(old(pendingToolNames), old(pendingToolInputs), uses, i,
                             pendingToolNames, pendingToolInputs, toolName, toolInput)
        invariant pendingMarker == old(pendingMarker) && toolMarkerBuffer == old(toolMarkerBuffer)
        invariant outputLines == old(outputLines)
      {
        var u := uses[i];
        RegisterStep(old(pendingToolNames), old(pendingToolInputs), uses, i,
                     pendingToolNames, pendingToolInputs, toolName, toolInput);
        if Truthy(u.id) {
          pendingToolNames := pendingToolNames[u.id := u.name];
          pendingToolInputs := pendingToolInputs[u.id := u.input];
          toolName := Some(u.name);
          toolInput := Some(u.input);
        }
        i := i + 1;
      }
      assert uses[..i] == uses;
      var resultId := FindToolResultId(content);
      if Truthy(resultId) && resultId in pendingToolNames {
        toolName := Some(pendingToolNames[resultId]);
      }
    }

    /** Hold back, pair or output an item once the buffer is flushed. */
    method RouteItem(x: Item)
      modifies this
      ensures State() == Route(config.flags, old(State()), x)
    {
      if x.text.Some? && IsCommandMarker(x.text.value) {
        var info := ParseCommandInfo(x.text.value);
        if info.Some? {
          pendingMarker := Some(PendingMarker(x, info.value.0, info.value.1));
          return;
        }
      }
      if pendingMarker.Some? && x.text.Some? {
        var collapsed := Paired(pendingMarker.value, x.text.value);
        EmittedSingle(config.flags, collapsed);
        if ShouldInclude(config.flags, collapsed) {
          outputLines := outputLines + [collapsed];
        }
        pendingMarker := None;
        return;
      }
      EmittedSingle(config.flags, x);
      if x.text.Some? || x.toolOutput.Some? || x.toolName.Some? {
        if ShouldInclude(config.flags, x) {
          outputLines := outputLines + [x];
        }
      }
    }

    /** Buffer an "executed" item; otherwise flush the buffer and route the item. */
    method Handle(x: Item)
      modifies this
      ensures State() == Dispatch(config.flags, old(State()), x)
    {
      if x.tools {
        toolMarkerBuffer := toolMarkerBuffer + [x];
        return;
      }
      if toolMarkerBuffer != [] {
        EmitToolMarkers();
        toolMarkerBuffer := [];
      }
      assert State() == Flushed(config.flags, old(State()));
      RouteItem(x);
    }

    /** One record of the input. */
    method Step(r: Record)
      requires Processable(config, r)
      modifies this
      ensures State() == StepSpec(config, old(State()), r)
    {
      if r.Malformed? {
        return;
      }
      var obj := r.v.o;
      if Get(obj, "type") == JStr("summary") {
        return;
      }
      var mc := GetMessageContent(obj);
      var content := ContentOf(mc);
      var toolName: Option<string> := None;
      var toolInput: Option<Json> := None;
      if config.flags.includeTools {
        toolName, toolInput := RegisterTools(content);
      }
      if mc.NoMessage? {
        return;
      }
      var x := BuildItem(config.f, obj, mc, toolName, toolInput);
      Handle(x);
    }

    /** The end of the file: flush the buffer and return the output. */
    method Finish() returns (items: seq<Item>)
      modifies this
      ensures items == FinishSpec(config, old(State()))
      ensures items == outputLines
    {
      EmitToolMarkers();
      items := outputLines;
    }
  }

  /** `extract_essentials` over the records of a file. */
  method ExtractEssentials(c: Config, records: seq<Record>) returns (items: seq<Item>)
    requires forall i :: 0 <= i < |records| ==> Processable(c, records[i])
    ensures items == Extract(c, records)
    ensures forall i :: 0 <= i < |items| ==> ShouldInclude(c.flags, items[i])
  {
    var e := new Extractor(c);
    for i := 0 to |records|
      invariant e.State() == Run(c, Initial, records[..i])
    {
      assert records[..i + 1][..i] == records[..i];
      e.Step(records[i]);
    }
    assert records[..|records|] == records;
    items := e.Finish();
    ExtractOutputsIncluded(c, records);
  }

  // ------------------------------------------------------------ properties

  /** What the extractor keeps true between records: everything output passes the filter, the
      buffer holds only "executed" items, and a pending marker's text parses to its name and args. */
  predicate Invariant(fl: Flags, s: ExtractState) {
    && (forall i :: 0 <= i < |s.output| ==> ShouldInclude(fl, s.output[i]))
    && (forall i :: 0 <= i < |s.buffer| ==> s.buffer[i].tools)
    && (s.pending.Some? ==>
          var m := s.pending.value;
          m.item.text.Some? && ParseCommandInfo(m.item.text.value) == Some((m.name, m.args)))
  }

  lemma FlushedPreservesInvariant(fl: Flags, s: ExtractState)
    requires Invariant(fl, s)
    ensures Invariant(fl, Flushed(fl, s))
  {
    var out := s.output + Emitted(fl, Collapse(s.buffer));
    EmittedFilters(fl, Collapse(s.buffer));
    forall i | 0 <= i < |out| ensures ShouldInclude(fl, out[i]) {
      if i >= |s.output| {
        assert out[i] == Emitted(fl, Collapse(s.buffer))[i - |s.output|];
      }
    }
  }

  lemma RoutePreservesInvariant(fl: Flags, s: ExtractState, x: Item)
    requires Invariant(fl, s)
    ensures Invariant(fl, Route(fl, s, x))
  {
    if !(x.text.Some? && IsCommandMarker(x.text.value) && ParseCommandInfo(x.text.value).Some?) {
      var extra := if s.pending.Some? && x.text.Some? then Emitted(fl, [Paired(s.pending.value, x.text.value)])
                   else Emitted(fl, [x]);
      var out := s.output + extra;
      EmittedSingle(fl, x);
      if s.pending.Some? && x.text.Some? {
        EmittedSingle(fl, Paired(s.pending.value, x.text.value));
      }
      forall i | 0 <= i < |out| ensures ShouldInclude(fl, out[i]) {
        if i >= |s.output| {
          assert out[i] == extra[i - |s.output|];
        }
      }
    }
  }

  lemma DispatchPreservesInvariant(fl: Flags, s: ExtractState, x: Item)
    requires Invariant(fl, s)
    ensures Invariant(fl, Dispatch(fl, s, x))
  {
    if !x.tools {
      FlushedPreservesInvariant(fl, s);
      RoutePreservesInvariant(fl, Flushed(fl, s), x);
    }
  }

  lemma StepPreservesInvariant(c: Config, s: ExtractState, r: Record)
    requires Processable(c, r)
    requires Invariant(c.flags, s)
    ensures Invariant(c.flags, StepSpec(c, s, r))
  {
    if !r.Malformed? && Get(r.v.o, "type") != JStr("summary") {
      var obj := r.v.o;
      var mc := GetMessageContent(obj);
      var info := ScanTools(c, s.names, s.inputs, ContentOf(mc));
      var s1 := s.(names := info.names, inputs := info.inputs);
      assert Invariant(c.flags, s1);
      if mc.Message? {
        DispatchPreservesInvariant(c.flags, s1, BuildItem(c.f, obj, mc, info.name, info.input));
      }
    }
  }

  lemma {:induction false} RunPreservesInvariant(c: Config, s: ExtractState, rs: seq<Record>)
    requires forall i :: 0 <= i < |rs| ==> Processable(c, rs[i])
    requires Invariant(c.flags, s)
    ensures Invariant(c.flags, Run(c, s, rs))
    decreases |rs|
  {
    if rs != [] {
      RunPreservesInvariant(c, s, rs[..|rs| - 1]);
      StepPreservesInvariant(c, Run(c, s, rs[..|rs| - 1]), rs[|rs| - 1]);
    }
  }

  /** Every item `extract_essentials` returns satisfies `should_include`. */
  lemma ExtractOutputsIncluded(c: Config, rs: seq<Record>)
    requires forall i :: 0 <= i < |rs| ==> Processable(c, rs[i])
    ensures forall i :: 0 <= i < |Extract(c, rs)| ==> ShouldInclude(c.flags, Extract(c, rs)[i])
  {
    RunPreservesInvariant(c, Initial, rs);
    FlushedPreservesInvariant(c.flags, Run(c, Initial, rs));
  }

  /** Malformed lines, summaries and records without a truthy message leave the output, the
      buffer and the pending marker alone (only the tool registries may change, and they do
      not: a record without a message has no content to register). */
  lemma SkippedRecordLeavesStateUnchanged(c: Config, s: ExtractState, r: Record)
    requires Processable(c, r)
    requires r.Malformed? || Get(r.v.o, "type") == JStr("summary") || !Truthy(Get(r.v.o, "message"))
    ensures StepSpec(c, s, r) == s
  {
  }

  /** An "executed" item is buffered, even when it also has text: nothing is output and a
      pending marker stays pending. */
  lemma ExecutedIsBuffered(fl: Flags, s: ExtractState, x: Item)
    requires x.tools
    ensures var s' := Dispatch(fl, s, x);
      s'.buffer == s.buffer + [x] && s'.output == s.output && s'.pending == s.pending
  {
  }

  /** Any other item first flushes the buffer, which it leaves empty. */
  lemma OtherItemsFlushBuffer(fl: Flags, s: ExtractState, x: Item)
    requires !x.tools
    ensures var s' := Dispatch(fl, s, x);
      && s'.buffer == []
      && |s'.output| >= |s.output| + |Emitted(fl, Collapse(s.buffer))|
      && s'.output[..|s.output| + |Emitted(fl, Collapse(s.buffer))|] == s.output + Emitted(fl, Collapse(s.buffer))
  {
  }

  /** A marker whose name parses becomes the pending marker, replacing any earlier one, and is not
      output itself. */
  lemma CommandMarkerBecomesPending(fl: Flags, s: ExtractState, x: Item)
    requires !x.tools && x.text.Some? && IsCommandMarker(x.text.value)
    requires ParseCommandInfo(x.text.value).Some?
    ensures var s' := Dispatch(fl, s, x);
      && s'.pending == Some(PendingMarker(x, ParseCommandInfo(x.text.value).value.0, ParseCommandInfo(x.text.value).value.1))
      && s'.output == s.output + Emitted(fl, Collapse(s.buffer))
  {
  }

  /** With a marker pending, the next item with text (that is not itself a marker) is consumed as
      the template: the marker item is output without its text and with the command marker, keeps
      its `_id`, and the marker is cleared. */
  lemma TemplateConsumesPending(fl: Flags, s: ExtractState, x: Item)
    requires !x.tools && x.text.Some? && s.pending.Some?
    requires !(IsCommandMarker(x.text.value) && ParseCommandInfo(x.text.value).Some?)
    ensures var s' := Dispatch(fl, s, x); var m := s.pending.value; var p := Paired(m, x.text.value);
      && s'.pending.None?
      && s'.output == s.output + Emitted(fl, Collapse(s.buffer)) + Emitted(fl, [p])
      && p.text.None? && p.commandMarker == Some(CommandMarker(m.name, m.args, x.text.value))
      && p.id == m.item.id && p.role == m.item.role && p.timestamp == m.item.timestamp
  {
  }

  /** An item without text never touches a pending marker. */
  lemma TextlessItemKeepsMarker(fl: Flags, s: ExtractState, x: Item)
    requires x.text.None?
    ensures Dispatch(fl, s, x).pending == s.pending
  {
  }

  /** Without a pending marker, a non-marker item with none of text, tool output and tool name is
      dropped; one with any of them is output when the filter allows it. */
  lemma PlainItemOutput(fl: Flags, s: ExtractState, x: Item)
    requires !x.tools && s.pending.None?
    requires x.text.None? || !IsCommandMarker(x.text.value) || ParseCommandInfo(x.text.value).None?
    ensures var s' := Dispatch(fl, s, x); var flushed := s.output + Emitted(fl, Collapse(s.buffer));
      && ((x.text.Some? || x.toolOutput.Some? || x.toolName.Some?) && ShouldInclude(fl, x) ==> s'.output == flushed + [x])
      && (!((x.text.Some? || x.toolOutput.Some? || x.toolName.Some?) && ShouldInclude(fl, x)) ==> s'.output == flushed)
  {
    EmittedSingle(fl, x);
  }

  /** Output is only ever appended to. */
  lemma DispatchExtendsOutput(fl: Flags, s: ExtractState, x: Item)
    ensures var s' := Dispatch(fl, s, x);
      |s.output| <= |s'.output| && s'.output[..|s.output|] == s.output
  {
  }

  lemma StepExtendsOutput(c: Config, s: ExtractState, r: Record)
    requires Processable(c, r)
    ensures var s' := StepSpec(c, s, r);
      |s.output| <= |s'.output| && s'.output[..|s.output|] == s.output
  {
    if !r.Malformed? && Get(r.v.o, "type") != JStr("summary") {
      var obj := r.v.o;
      var mc := GetMessageContent(obj);
      var info := ScanTools(c, s.names, s.inputs, ContentOf(mc));
      var s1 := s.(names := info.names, inputs := info.inputs);
      if mc.Message? {
        DispatchExtendsOutput(c.flags, s1, BuildItem(c.f, obj, mc, info.name, info.input));
      }
    }
  }

  /** Only the `--tools` block touches the registries. */
  lemma DispatchKeepsRegistries(fl: Flags, s: ExtractState, x: Item)
    ensures Dispatch(fl, s, x).names == s.names && Dispatch(fl, s, x).inputs == s.inputs
  {
  }

  /** The tool-name registry only grows: a name once learned stays resolvable. */
  lemma StepKeepsRegisteredNames(c: Config, s: ExtractState, r: Record)
    requires Processable(c, r)
    ensures s.names.Keys <= StepSpec(c, s, r).names.Keys
  {
    if !r.Malformed? && Get(r.v.o, "type") != JStr("summary") {
      var obj := r.v.o;
      var mc := GetMessageContent(obj);
      var info := ScanTools(c, s.names, s.inputs, ContentOf(mc));
      if c.flags.includeTools {
        RegisterNamesContents(s.names, FindToolUseItems(ContentOf(mc)));
      }
      assert s.names.Keys <= info.names.Keys;
      var s1 := s.(names := info.names, inputs := info.inputs);
      if mc.Message? {
        DispatchKeepsRegistries(c.flags, s1, BuildItem(c.f, obj, mc, info.name, info.input));
      }
    }
  }

  /** A marker still pending at the end of the stream is dropped without a trace. */
  lemma FinishIgnoresPendingMarker(c: Config, s: ExtractState, m: Option<PendingMarker>)
    ensures FinishSpec(c, s.(pending := m)) == FinishSpec(c, s)
  {
  }

  /** A run of n >= 2 "executed" items ending the stream yields one collapsed item counting n. */
  lemma FinishCollapsesRun(c: Config, s: ExtractState)
    requires |s.buffer| >= 2
    requires c.flags.includeTools
    ensures var r := FinishSpec(c, s);
      |r| == |s.output| + 1 && r[|r| - 1].toolsCollapsed == Some(|s.buffer|) && !r[|r| - 1].tools
      && r[|r| - 1].id == s.buffer[0].id
  {
    EmittedSingle(c.flags, Collapse(s.buffer)[0]);
    assert Collapse(s.buffer) == [Collapse(s.buffer)[0]];
  }
}
