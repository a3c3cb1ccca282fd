/**
 * Message extraction helpers (helpers/extraction.py): recognising and parsing
 * slash-command markers, reading a record's message and content list, scanning
 * the content for tool invocations, results and text, the inclusion filter and
 * the item fingerprint.
 */
module ExtractionHelpers {
  import opened Wrappers
  import opened Strings
  import opened Json
  import opened Items

  // ---------------------------------------------------------------- fingerprint

  /** `get_message_id`: the first 12 hex digits of the MD5 of the sorted-key JSON of
      role, text, tool output and command marker (absent ones as `''` or `{}`). */
  function MessageId(f: Foreign, x: Item): (r: string)
    ensures |r| <= 12
  {
    var fields := map[
      "role" := x.role,
      "text" := JStr(x.text.GetOr("")),
      "tool_output" := JStr(x.toolOutput.GetOr("")),
      "command_marker" := if x.commandMarker.Some? then CommandMarkerToJson(x.commandMarker.value) else JObj(map[])
    ];
    Take(f.md5Hex(f.dumpsSorted(JObj(fields))), 12)
  }

  /** The fingerprint reads nothing but role, text, tool output and command marker. */
  lemma MessageIdFields(f: Foreign, x: Item, y: Item)
    requires x.role == y.role && x.text == y.text && x.toolOutput == y.toolOutput
    requires x.commandMarker == y.commandMarker
    ensures MessageId(f, x) == MessageId(f, y)
  {
  }

  // ------------------------------------------------------------ command markers

  const CommandMessageOpen := "<command-message>"
  const NameOpen := "<command-name>"
  const NameClose := "</command-name>"
  const ArgsOpen := "<command-args>"
  const ArgsClose := "</command-args>"

  /** `is_command_marker`. */
  predicate IsCommandMarker(text: string) {
    Contains(text, CommandMessageOpen) && Contains(text, NameOpen)
  }

  /** The regular expression `<command-name>(.*?)</command-name>` matches at `p` with its
      group ending at `q`: `.` matches no newline, and `*?` stops at the first closing tag. */
  predicate NameMatch(text: string, p: int, q: int) {
    && IsAt(text, NameOpen, p)
    && p + |NameOpen| <= q
    && IsAt(text, NameClose, q)
    && (forall k :: p + |NameOpen| <= k < q ==> text[k] != '\n')
    && (forall i :: p + |NameOpen| <= i < q ==> !IsAt(text, NameClose, i))
  }

  /** The end of the name match at `p`, or -1 if the pattern does not match there. */
  function NameMatchEnd(text: string, p: nat): (q: int)
    ensures q >= 0 ==> NameMatch(text, p, q)
    ensures q < 0 ==> forall q' :: !NameMatch(text, p, q')
  {
    if !IsAt(text, NameOpen, p) then -1
    else
      var a := p + |NameOpen|;
      var q := Find(text, NameClose, a);
      if q != -1 && forall k :: a <= k < q ==> text[k] != '\n' then q else -1
  }

  /** `re.search` for the name pattern from `p` on: the leftmost match. */
  function FirstNameMatch(text: string, p: nat): (r: Option<(nat, nat)>)
    ensures r.None? ==> forall i, q :: p <= i ==> !NameMatch(text, i, q)
    ensures r.Some? ==> p <= r.value.0 && NameMatch(text, r.value.0, r.value.1)
    ensures r.Some? ==> forall i, q :: p <= i < r.value.0 ==> !NameMatch(text, i, q)
    decreases |text| - p
  {
    if p > |text| then None
    else
      var q := NameMatchEnd(text, p);
      if q >= 0 then Some((p, q)) else FirstNameMatch(text, p + 1)
  }

  /** The DOTALL pattern `<command-args>(.*?)</command-args>` matches at `p` with its group
      ending at `q`. */
  predicate ArgsMatch(text: string, p: int, q: int) {
    && IsAt(text, ArgsOpen, p)
    && p + |ArgsOpen| <= q
    && IsAt(text, ArgsClose, q)
    && (forall i :: p + |ArgsOpen| <= i < q ==> !IsAt(text, ArgsClose, i))
  }

  /** Two args matches at the same start end at the same place. */
  lemma ArgsMatchUnique(text: string, p: int, q: int, q': int)
    requires ArgsMatch(text, p, q) && ArgsMatch(text, p, q')
    ensures q == q'
  {
  }

  /** `re.search` for the args pattern: the leftmost match, found at the first opening tag. */
  function FirstArgsMatch(text: string): (r: Option<(nat, nat)>)
    ensures r.None? ==> forall p, q :: !ArgsMatch(text, p, q)
    ensures r.Some? ==> ArgsMatch(text, r.value.0, r.value.1)
    ensures r.Some? ==> forall p, q :: p < r.value.0 ==> !ArgsMatch(text, p, q)
  {
    var p := Find(text, ArgsOpen, 0);
    if p == -1 then None
    else
      var q := Find(text, ArgsClose, p + |ArgsOpen|);
      if q == -1 then
        None
      else Some((p, q))
  }

  /** The stripped group of the leftmost args match, or `''` when there is none. */
  function CommandArgs(text: string): (r: string)
    ensures (forall p, q :: !ArgsMatch(text, p, q)) ==> r == ""
    ensures forall p, q ::
              (ArgsMatch(text, p, q) && (forall p', q' :: p' < p ==> !ArgsMatch(text, p', q')))
              ==> r == Strip(text[p + |ArgsOpen|..q])
  {
    match FirstArgsMatch(text)
    case None => ""
    case Some((p, q)) =>
      LeftmostArgsMatch(text);
      Strip(text[p + |ArgsOpen|..q])
  }

  /** Any leftmost args match is the one the search finds. */
  lemma LeftmostArgsMatch(text: string)
    ensures forall p, q ::
              (ArgsMatch(text, p, q) && (forall p', q' :: p' < p ==> !ArgsMatch(text, p', q')))
              ==> FirstArgsMatch(text) == Some((p, q))
  {
    forall p, q | ArgsMatch(text, p, q) && (forall p', q' :: p' < p ==> !ArgsMatch(text, p', q'))
      ensures FirstArgsMatch(text) == Some((p, q))
    {
      var r := FirstArgsMatch(text);
      assert r.Some?;
      var p0, q0 := r.value.0, r.value.1;
      assert !(p < p0);
      assert !(p0 < p);
      ArgsMatchUnique(text, p, q, q0);
    }
  }

  /** Two name matches at the same start end at the same place. */
  lemma NameMatchUnique(text: string, p: int, q: int, q': int)
    requires NameMatch(text, p, q) && NameMatch(text, p, q')
    ensures q == q'
  {
  }

  /** `parse_command_info`: `None` without a name match, else the leftmost name and the args. */
  function ParseCommandInfo(text: string): (r: Option<(string, string)>)
    ensures r.None? <==> forall p, q :: !NameMatch(text, p, q)
    ensures forall p, q ::
              (NameMatch(text, p, q) && (forall p', q' :: p' < p ==> !NameMatch(text, p', q')))
              ==> r == Some((text[p + |NameOpen|..q], CommandArgs(text)))
  {
    match FirstNameMatch(text, 0)
    case None => None
    case Some((p, q)) =>
      LeftmostNameMatch(text);
      Some((text[p + |NameOpen|..q], CommandArgs(text)))
  }

  /** Any leftmost name match is the one the search finds. */
  lemma LeftmostNameMatch(text: string)
    ensures forall p, q ::
              (NameMatch(text, p, q) && (forall p', q' :: p' < p ==> !NameMatch(text, p', q')))
              ==> FirstNameMatch(text, 0) == Some((p, q))
  {
    forall p, q | NameMatch(text, p, q) && (forall p', q' :: p' < p ==> !NameMatch(text, p', q'))
      ensures FirstNameMatch(text, 0) == Some((p, q))
    {
      var r := FirstNameMatch(text, 0);
      assert r.Some?;
      var p0, q0 := r.value.0, r.value.1;
      assert !(p < p0);
      assert !(p0 < p);
      NameMatchUnique(text, p, q, q0);
    }
  }

  /** The group of a name match holds no newline and no closing tag. */
  lemma NameGroupIsClean(text: string, p: int, q: int)
    requires NameMatch(text, p, q)
    ensures '\n' !in text[p + |NameOpen|..q]
    ensures !Contains(text[p + |NameOpen|..q], NameClose)
  {
    var a := p + |NameOpen|;
    var name := text[a..q];
    forall k | 0 <= k < |name| ensures name[k] != '\n' {
      assert name[k] == text[a + k];
    }
    if Contains(name, NameClose) {
      var i := Find(name, NameClose, 0);
      IsAtSlice(text, a, q, NameClose, i);
      assert false;
    }
  }

  /** A parsed name never spans a line and never contains the closing tag. */
  lemma ParsedNameIsOneLine(text: string)
    requires ParseCommandInfo(text).Some?
    ensures '\n' !in ParseCommandInfo(text).value.0
    ensures !Contains(ParseCommandInfo(text).value.0, NameClose)
  {
    var m := FirstNameMatch(text, 0);
    var p, q := m.value.0, m.value.1;
    assert ParseCommandInfo(text).value.0 == text[p + |NameOpen|..q];
    NameGroupIsClean(text, p, q);
  }

  // ------------------------------------------------------------- message access

  /** `get_message_content`'s outcome: no (truthy) message, or the message and its content list. */
  datatype MessageContent = NoMessage | Message(msg: map<string, Json>, content: seq<Json>)

  /** The record's message is falsy or a `dict`; a truthy non-dict makes `msg.get` raise. */
  predicate MessageShapeOk(obj: map<string, Json>) {
    var m := Get(obj, "message");
    !Truthy(m) || m.JObj?
  }

  /** `get_message_content(obj)`. */
  function GetMessageContent(obj: map<string, Json>): (r: MessageContent)
    requires MessageShapeOk(obj)
    ensures r.NoMessage? <==> !Truthy(Get(obj, "message"))
    ensures r.Message? ==> r.msg == obj["message"].o
    ensures r.Message? && "content" in r.msg && r.msg["content"].JArr? ==> r.content == r.msg["content"].a
    ensures r.Message? && !("content" in r.msg && r.msg["content"].JArr?) ==> r.content == []
  {
    var m := Get(obj, "message");
    if !Truthy(m) then NoMessage
    else
      var content := GetOr(m.o, "content", JArr([]));
      if content.JArr? then Message(m.o, content.a) else Message(m.o, [])
  }

  /** The content list of a record, `[]` when it has no message (`content or []`). */
  function ContentOf(mc: MessageContent): seq<Json> {
    if mc.Message? then mc.content else []
  }

  // -------------------------------------------------------------- tool scanning

  predicate IsToolUse(item: Json) {
    item.JObj? && Get(item.o, "type") == JStr("tool_use")
  }

  /** A `tool_use` item's name is a string (or absent); anything else makes `startswith` raise. */
  predicate ToolUseNameOk(item: Json) {
    IsToolUse(item) ==> GetOr(item.o, "name", JStr("")).JStr?
  }

  /** `(tool_use_id, tool_name, tool_input)` yielded for one `tool_use` item. */
  datatype ToolUse = ToolUse(id: Json, name: string, input: Json)

  /** The display name: an `mcp__…` name becomes its last `__`-separated piece. */
  function ShortToolName(full: string): (r: string)
    ensures !StartsWith(full, "mcp__") ==> r == full
  {
    if StartsWith(full, "mcp__") then
      var parts := Split(full, "__");
      parts[|parts| - 1]
    else full
  }

  /** An MCP display name is the tail of the full name that follows an occurrence of `__` and
      holds no `__` itself. */
  lemma ShortToolNameIsSuffix(full: string)
    requires StartsWith(full, "mcp__")
    ensures var r := ShortToolName(full);
      && |r| + 2 <= |full| && full[|full| - |r|..] == r
      && full[|full| - |r| - 2..|full| - |r|] == "__"
      && !Contains(r, "__")
  {
    var parts := Split(full, "__");
    assert ShortToolName(full) == parts[|parts| - 1];
    assert full[3..5] == full[..5][3..5];
    ContainsAt(full, "__", 3);
    LastPieceIsSuffix(full, "__");
    LastPieceFollowsSeparator(full, "__");
    LastPieceIsFree(full, "__");
  }

  function ToolUseOf(item: Json): (t: ToolUse)
    requires IsToolUse(item) && ToolUseNameOk(item)
  {
    ToolUse(Get(item.o, "id"), ShortToolName(GetOr(item.o, "name", JStr("")).s), GetOr(item.o, "input", JObj(map[])))
  }

  /** `find_tool_use_items(content)`: one triple per `tool_use` item, in order. */
  function FindToolUseItems(content: seq<Json>): (r: seq<ToolUse>)
    requires forall i :: 0 <= i < |content| ==> ToolUseNameOk(content[i])
    ensures |r| <= |content|
  {
    if content == [] then []
    else (if IsToolUse(content[0]) then [ToolUseOf(content[0])] else []) + FindToolUseItems(content[1..])
  }

  /** One item yields its triple exactly when it is a `tool_use` item. */
  lemma FindToolUseItemsSingle(item: Json)
    requires ToolUseNameOk(item)
    ensures FindToolUseItems([item]) == if IsToolUse(item) then [ToolUseOf(item)] else []
  {
  }

  /** The scan distributes over concatenation: together with the one-item cases this fixes its
      result, in order. */
  lemma {:induction false} FindToolUseItemsAppend(a: seq<Json>, b: seq<Json>)
    requires forall i :: 0 <= i < |a| ==> ToolUseNameOk(a[i])
    requires forall i :: 0 <= i < |b| ==> ToolUseNameOk(b[i])
    ensures forall i :: 0 <= i < |a + b| ==> ToolUseNameOk((a + b)[i])
    ensures FindToolUseItems(a + b) == FindToolUseItems(a) + FindToolUseItems(b)
    decreases |a|
  {
    assert forall i :: 0 <= i < |a + b| ==> ToolUseNameOk((a + b)[i]) by {
      forall i | 0 <= i < |a + b| ensures ToolUseNameOk((a + b)[i]) {
        if i < |a| { assert (a + b)[i] == a[i]; } else { assert (a + b)[i] == b[i - |a|]; }
      }
    }
    if a != [] {
      FindToolUseItemsAppend(a[1..], b);
      assert (a + b)[1..] == a[1..] + b;
      assert (a + b)[0] == a[0];
    } else {
      assert a + b == b;
    }
  }

  predicate IsToolResult(item: Json) {
    item.JObj? && Get(item.o, "type") == JStr("tool_result")
  }

  /** `find_tool_result_id(content)`: the `tool_use_id` of the first `tool_result` item
      (`None`, here `JNull`, when there is none or it has no id). */
  function FindToolResultId(content: seq<Json>): Json {
    if content == [] then JNull
    else if IsToolResult(content[0]) then Get(content[0].o, "tool_use_id")
    else FindToolResultId(content[1..])
  }

  /** The id comes from the first `tool_result` item; without one it is `None`. */
  lemma {:induction false} FirstToolResultWins(content: seq<Json>)
    ensures (forall i :: 0 <= i < |content| ==> !IsToolResult(content[i])) ==> FindToolResultId(content) == JNull
    ensures forall i ::
              (0 <= i < |content| && IsToolResult(content[i]) && (forall j :: 0 <= j < i ==> !IsToolResult(content[j])))
              ==> FindToolResultId(content) == Get(content[i].o, "tool_use_id")
  {
    NoToolResultIsNull(content);
    forall i | 0 <= i < |content| && IsToolResult(content[i]) && (forall j :: 0 <= j < i ==> !IsToolResult(content[j]))
      ensures FindToolResultId(content) == Get(content[i].o, "tool_use_id")
    {
      FirstToolResultAt(content, i);
    }
  }

  lemma {:induction false} NoToolResultIsNull(content: seq<Json>)
    ensures (forall i :: 0 <= i < |content| ==> !IsToolResult(content[i])) ==> FindToolResultId(content) == JNull
    decreases |content|
  {
    if content != [] && !IsToolResult(content[0]) {
      var rest := content[1..];
      NoToolResultIsNull(rest);
      forall i | 0 <= i < |rest| ensures rest[i] == content[i + 1] { }
    }
  }

  lemma {:induction false} FirstToolResultAt(content: seq<Json>, i: nat)
    requires i < |content| && IsToolResult(content[i])
    requires forall j :: 0 <= j < i ==> !IsToolResult(content[j])
    ensures FindToolResultId(content) == Get(content[i].o, "tool_use_id")
    decreases i
  {
    if i > 0 {
      assert !IsToolResult(content[0]);
      var rest := content[1..];
      assert rest[i - 1] == content[i];
      forall j | 0 <= j < i - 1 ensures !IsToolResult(rest[j]) {
        assert rest[j] == content[j + 1];
      }
      FirstToolResultAt(rest, i - 1);
    }
  }

  // -------------------------------------------------------------- text joining

  predicate HasText(item: Json) {
    item.JObj? && "text" in item.o
  }

  /** A `text` value is a string; anything else makes `'\n'.join` raise. */
  predicate TextIsString(item: Json) {
    HasText(item) ==> item.o["text"].JStr?
  }

  /** `[item['text'] for item in content if isinstance(item, dict) and 'text' in item]`. */
  function Texts(content: seq<Json>): seq<string>
    requires forall i :: 0 <= i < |content| ==> TextIsString(content[i])
  {
    if content == [] then []
    else
      var rest := Texts(content[1..]);
      assert forall i :: 1 <= i < |content| ==> content[1..][i - 1] == content[i];
      assert TextIsString(content[0]);
      (if HasText(content[0]) then [content[0].o["text"].s] else []) + rest
  }

  /** There are no texts exactly when no item has a `text` key. */
  lemma {:induction false} TextsEmpty(content: seq<Json>)
    requires forall i :: 0 <= i < |content| ==> TextIsString(content[i])
    ensures Texts(content) == [] <==> forall i :: 0 <= i < |content| ==> !HasText(content[i])
    decreases |content|
  {
    if content != [] {
      TextsCons(content);
      TextsEmpty(content[1..]);
      assert forall i :: 1 <= i < |content| ==> content[1..][i - 1] == content[i];
    }
  }

  /** One item contributes its `text` exactly when it is a dict with that key. */
  lemma TextsSingle(item: Json)
    requires TextIsString(item)
    ensures Texts([item]) == if HasText(item) then [item.o["text"].s] else []
  {
  }

  /** The collection distributes over concatenation: with the one-item cases this fixes the
      texts and their order. */
  lemma {:induction false} TextsAppend(a: seq<Json>, b: seq<Json>)
    requires forall i :: 0 <= i < |a| ==> TextIsString(a[i])
    requires forall i :: 0 <= i < |b| ==> TextIsString(b[i])
    ensures forall i :: 0 <= i < |a + b| ==> TextIsString((a + b)[i])
    ensures Texts(a + b) == Texts(a) + Texts(b)
    decreases |a|
  {
    assert forall i :: 0 <= i < |a + b| ==> TextIsString((a + b)[i]) by {
      forall i | 0 <= i < |a + b| ensures TextIsString((a + b)[i]) {
        if i < |a| { assert (a + b)[i] == a[i]; } else { assert (a + b)[i] == b[i - |a|]; }
      }
    }
    if a != [] {
      assert forall i :: 0 <= i < |a[1..]| ==> TextIsString(a[1..][i]) by {
        forall i | 0 <= i < |a[1..]| ensures TextIsString(a[1..][i]) { assert a[1..][i] == a[i + 1]; }
      }
      TextsAppend(a[1..], b);
      var ab := a + b;
      assert ab[1..] == a[1..] + b;
      assert ab[0] == a[0];
      TextsCons(ab);
      TextsCons(a);
    } else {
      assert a + b == b;
    }
  }

  /** One unfolding of the collection at the front. */
  lemma TextsCons(c: seq<Json>)
    requires c != [] && forall i :: 0 <= i < |c| ==> TextIsString(c[i])
    ensures forall i :: 0 <= i < |c[1..]| ==> TextIsString(c[1..][i])
    ensures Texts(c) == (if HasText(c[0]) then [c[0].o["text"].s] else []) + Texts(c[1..])
  {
    assert TextIsString(c[0]);
  }

  /** `extract_texts_from_content(content)`: the texts joined by newlines, or `None` without any. */
  function ExtractTextsFromContent(content: seq<Json>): (r: Option<string>)
    requires forall i :: 0 <= i < |content| ==> TextIsString(content[i])
    ensures r.None? <==> forall i :: 0 <= i < |content| ==> !HasText(content[i])
    ensures r.Some? ==> r.value == Join(Texts(content), "\n")
  {
    TextsEmpty(content);
    var texts := Texts(content);
    if texts == [] then None else Some(Join(texts, "\n"))
  }

  /** When no text holds a newline, the joined text splits back into the texts, in order. */
  lemma TextsRecoverable(content: seq<Json>)
    requires forall i :: 0 <= i < |content| ==> TextIsString(content[i])
    requires ExtractTextsFromContent(content).Some?
    requires forall t :: t in Texts(content) ==> '\n' !in t
    ensures Split(ExtractTextsFromContent(content).value, "\n") == Texts(content)
  {
    SplitJoin(Texts(content), '\n');
  }

  // ------------------------------------------------------------------ filtering

  /** The three composable switches `--user`, `--assistant`, `--tools`. */
  datatype Flags = Flags(includeUser: bool, includeAssistant: bool, includeTools: bool)

  /** The item carries one of the keys `tool_output`, `tool_name`, `tools`, `tools_collapsed`. */
  predicate HasToolKey(x: Item) {
    x.toolOutput.Some? || x.toolName.Some? || x.tools || x.toolsCollapsed.Some?
  }

  /** `should_include(extracted, …)`. Items always carry a role, so the empty-dict guard never fires. */
  predicate ShouldInclude(fl: Flags, x: Item) {
    if fl.includeTools && HasToolKey(x) then true
    else if x.role == JStr("user") && fl.includeUser then x.text.Some? || x.commandMarker.Some?
    else if x.role == JStr("assistant") && fl.includeAssistant then x.text.Some?
    else false
  }

  /** Switching more flags on never drops an item. */
  lemma IncludeIsMonotone(fl: Flags, fl': Flags, x: Item)
    requires fl.includeUser ==> fl'.includeUser
    requires fl.includeAssistant ==> fl'.includeAssistant
    requires fl.includeTools ==> fl'.includeTools
    requires ShouldInclude(fl, x)
    ensures ShouldInclude(fl', x)
  {
  }

  /** With every flag off nothing is included: the reason the command line insists on one. */
  lemma NoFlagsIncludeNothing(x: Item)
    ensures !ShouldInclude(Flags(false, false, false), x)
  {
  }

  /** An included item has something to show: tool keys, text, or a command marker, and
      a non-tool item is a user or assistant item. */
  lemma IncludedItemHasPayload(fl: Flags, x: Item)
    requires ShouldInclude(fl, x)
    ensures HasToolKey(x) || x.text.Some? || x.commandMarker.Some?
    ensures !HasToolKey(x) ==> x.role == JStr("user") || x.role == JStr("assistant")
    ensures !fl.includeTools ==> x.text.Some? || x.commandMarker.Some?
  {
  }
}
