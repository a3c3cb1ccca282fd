/**
 * Rendering extracted items (helpers/formatters.py): each item becomes one
 * `<tag_N>` block whose tag and content depend on which of the item's keys are
 * present; a list of items becomes the blocks joined by blank lines, or one
 * JSON document per line.
 */
module Formatters {
  import opened Wrappers
  import opened Strings
  import opened Json
  import opened Items
  import opened Truncation

  /** `→`, which introduces a tool's output. */
  const Arrow: string := "\U{2192}"

  /** Tools whose input the formatter reads key by key, so that input must be a `dict`. */
  const InputProjectingTools: set<string> :=
    {"Bash", "Read", "Edit", "Write", "Grep", "Glob", "sequentialthinking", "AskUserQuestion"}

  /** Values that `[:n]` can slice. */
  predicate Sliceable(v: Json) {
    v.JStr? || v.JArr?
  }

  /** Values that `len` accepts. */
  predicate Sized(v: Json) {
    v.JStr? || v.JArr? || v.JObj?
  }

  /** `v[:n]` on a string or a list. */
  function JsonTake(v: Json, n: nat): (r: Json)
    requires Sliceable(v)
    ensures v.JStr? ==> r == JStr(Take(v.s, n))
    ensures v.JArr? ==> r.JArr? && |r.a| == (if n <= |v.a| then n else |v.a|) && r.a <= v.a
  {
    if v.JStr? then JStr(Take(v.s, n)) else JArr(if n <= |v.a| then v.a[..n] else v.a)
  }

  /** `len(v)`: characters, elements or keys. */
  function JsonLen(v: Json): nat
    requires Sized(v)
  {
    match v
    case JStr(s) => |s|
    case JArr(a) => |a|
    case JObj(o) => |o|
  }

  /** The formatter takes the tool-call branch: a tool name with an input and no output. */
  predicate IsToolCall(x: Item) {
    x.toolName.Some? && x.toolInput.Some? && x.toolOutput.None?
  }

  /**
   * What the tool-call branch needs of an input so that no `.get`, slice, `len`
   * or iteration raises: a `dict` for the tools read key by key, sliceable
   * `old_string`/`new_string` for Edit, a sized `content` for Write, and an
   * iterable truthy `questions` for AskUserQuestion.
   */
  predicate InputOk(name: string, input: Json) {
    name in InputProjectingTools ==>
      && input.JObj?
      && (name == "Edit" ==>
            Sliceable(GetOr(input.o, "old_string", JStr(""))) && Sliceable(GetOr(input.o, "new_string", JStr(""))))
      && (name == "Write" ==> Sized(GetOr(input.o, "content", JStr(""))))
      && (name == "AskUserQuestion" ==>
            var q := GetOr(input.o, "questions", JArr([]));
            Truthy(q) ==> q.JStr? || q.JArr? || q.JObj?)
  }

  /** An item `format_item_to_xml` renders without raising. */
  predicate Renderable(x: Item) {
    x.commandMarker.None? && IsToolCall(x) ==> InputOk(x.toolName.value, x.toolInput.value)
  }

  /** The `question` values of the `dict` entries of a question list. */
  function DictQuestions(qs: seq<Json>): (r: seq<Json>)
    ensures |r| <= |qs|
    ensures (forall i :: 0 <= i < |qs| ==> !qs[i].JObj?) ==> r == []
  {
    if qs == [] then []
    else (if qs[0].JObj? then [GetOr(qs[0].o, "question", JStr(""))] else []) + DictQuestions(qs[1..])
  }

  /** One entry contributes its `question` (default `''`) exactly when it is a `dict`. */
  lemma DictQuestionsSingle(q: Json)
    ensures DictQuestions([q]) == if q.JObj? then [GetOr(q.o, "question", JStr(""))] else []
  {
  }

  /** The collection distributes over concatenation: with the one-entry cases this fixes the
      questions and their order. */
  lemma {:induction false} DictQuestionsAppend(a: seq<Json>, b: seq<Json>)
    ensures DictQuestions(a + b) == DictQuestions(a) + DictQuestions(b)
    decreases |a|
  {
    if a != [] {
      DictQuestionsAppend(a[1..], b);
      assert (a + b)[1..] == a[1..] + b;
      assert (a + b)[0] == a[0];
    } else {
      assert a + b == b;
    }
  }

  /** Iterating a string or a `dict` yields strings, never `dict`s, so only a list contributes. */
  function QuestionTexts(questions: Json): seq<Json> {
    if questions.JArr? then DictQuestions(questions.a) else []
  }

  function QuestionLines(f: Foreign, texts: seq<Json>): (r: seq<string>)
    ensures |r| == |texts|
    ensures forall i :: 0 <= i < |r| ==> r[i] == "Q: " + Show(f, texts[i])
  {
    seq(|texts|, i requires 0 <= i < |texts| => "Q: " + Show(f, texts[i]))
  }

  /** A rendered block's tag and content. */
  datatype View = View(tag: string, content: string)

  /** The tool-call branch: a per-tool summary of the input. */
  function ToolCallView(f: Foreign, name: string, input: Json): (v: View)
    requires InputOk(name, input)
    ensures name !in {"sequentialthinking", "AskUserQuestion"} ==> v.tag == Lower(name)
    ensures name !in InputProjectingTools ==> |v.content| <= 500
  {
    var tag := Lower(name);
    if name == "Bash" then View(tag, Show(f, GetOr(input.o, "command", input)))
    else if name == "Read" then View(tag, Show(f, GetOr(input.o, "file_path", input)))
    else if name == "Edit" then
      var before := JsonTake(GetOr(input.o, "old_string", JStr("")), 50);
      var after := JsonTake(GetOr(input.o, "new_string", JStr("")), 50);
      View(tag, Show(f, GetOr(input.o, "file_path", JStr(""))) + "\n  " + f.repr(before) + " " + Arrow + " " + f.repr(after))
    else if name == "Write" then
      var size := JsonLen(GetOr(input.o, "content", JStr("")));
      View(tag, Show(f, GetOr(input.o, "file_path", JStr(""))) + " (" + Decimal(size) + " chars)")
    else if name == "Grep" then
      View(tag, f.repr(GetOr(input.o, "pattern", JStr(""))) + " in " + Show(f, GetOr(input.o, "path", JStr("."))))
    else if name == "Glob" then View(tag, Show(f, GetOr(input.o, "pattern", JStr(""))))
    else if name == "sequentialthinking" then View("thinking", Show(f, GetOr(input.o, "thought", input)))
    else if name == "AskUserQuestion" then
      var questions := GetOr(input.o, "questions", JArr([]));
      if Truthy(questions) then View("question", Join(QuestionLines(f, QuestionTexts(questions)), "\n"))
      else View("question", Take(f.show(input), 500))
    else View(tag, Take(Show(f, input), 500))
  }

  /** `"\n".join("    " + line for line in lines)`. */
  function Indent(lines: seq<string>): string {
    Join(seq(|lines|, i requires 0 <= i < |lines| => "    " + lines[i]), "\n")
  }

  /** Drops the first four characters of every line of `s`; undoes `Indent`. */
  function Unindent(s: string): string {
    var lines := Split(s, "\n");
    Join(seq(|lines|, i requires 0 <= i < |lines| => if |lines[i]| >= 4 then lines[i][4..] else lines[i]), "\n")
  }

  /** The tool-output branch: the answer to a question verbatim, anything else truncated and
      put after an arrow, on the same line or indented below it. */
  function ToolResultView(f: Foreign, name: string, output: string): View {
    if name == "AskUserQuestion" then View("answer", output)
    else
      var out := TruncateByToolType(f, output, Some(name));
      if '\n' in out then View(Lower(name), Arrow + "\n" + Indent(Split(out, "\n")))
      else View(Lower(name), Arrow + " " + out)
  }

  /** `/name`, followed by a space and the arguments when there are any. */
  function CommandLine(m: CommandMarker): string {
    "/" + m.name + (if m.args != "" then " " + m.args else "")
  }

  /** The tag and content `format_item_to_xml` chooses, by the precedence of the item's keys. */
  function ItemView(f: Foreign, x: Item): View
    requires Renderable(x)
  {
    if x.commandMarker.Some? then View("command", CommandLine(x.commandMarker.value))
    else if x.toolName.Some? then
      var name := x.toolName.value;
      if x.toolInput.Some? && x.toolOutput.None? then ToolCallView(f, name, x.toolInput.value)
      else if x.toolOutput.Some? then ToolResultView(f, name, x.toolOutput.value)
      else View(Lower(name), "[executed]")
    else if x.toolsCollapsed.Some? then View("tools", "[" + Decimal(x.toolsCollapsed.value) + " tools executed]")
    else if x.text.Some? then View(Show(f, x.role), x.text.value)
    else View(Show(f, x.role), "[empty]")
  }

  function OpenTag(tag: string, index: nat): string {
    "<" + tag + "_" + Decimal(index) + ">\n"
  }

  function CloseTag(tag: string, index: nat): string {
    "\n</" + tag + "_" + Decimal(index) + ">"
  }

  /** `format_item_to_xml(item, index)`. */
  function FormatItemToXml(f: Foreign, x: Item, index: nat): string
    requires Renderable(x)
  {
    var v := ItemView(f, x);
    OpenTag(v.tag, index) + v.content + CloseTag(v.tag, index)
  }

  /** `format_items_to_xml(items)`: blocks numbered from 1, separated by blank lines. */
  function FormatItemsToXml(f: Foreign, items: seq<Item>): string
    requires forall i :: 0 <= i < |items| ==> Renderable(items[i])
  {
    Join(seq(|items|, i requires 0 <= i < |items| => FormatItemToXml(f, items[i], i + 1)), "\n\n")
  }

  /** `format_items_to_jsonl(items)`: one `json.dumps` per line. */
  function FormatItemsToJsonl(f: Foreign, items: seq<Item>): string {
    Join(seq(|items|, i requires 0 <= i < |items| => f.dumps(ItemToJson(items[i]))), "\n")
  }

  /** Reading JSONL back: every line through `json.loads` and then into an item. */
  function ParseJsonl(f: Foreign, s: string): seq<Option<Item>> {
    var lines := Split(s, "\n");
    seq(|lines|, i requires 0 <= i < |lines| => ItemFromJson(f.loads(lines[i])))
  }

  /** Splits a command line back into the name and the arguments at the first space. */
  function ParseCommandLine(line: string): (string, string)
    requires |line| >= 1
  {
    var rest := line[1..];
    var k := Find(rest, " ", 0);
    if k == -1 then (rest, "") else (rest[..k], rest[k + 1..])
  }

  // ---------------------------------------------------------------- properties

  /** A block opens and closes with the same tag and index, and the content sits between them. */
  lemma BlockUnwrap(f: Foreign, x: Item, index: nat)
    requires Renderable(x)
    ensures var b := FormatItemToXml(f, x, index);
      var v := ItemView(f, x);
      var o := OpenTag(v.tag, index);
      var c := CloseTag(v.tag, index);
      && |o| + |c| <= |b|
      && b[..|o|] == o
      && b[|b| - |c|..] == c
      && b[|o|..|b| - |c|] == v.content
  {
  }

  /** The tag follows the key precedence: command marker, then tool name, then collapsed tools,
      then the role. */
  lemma TagPrecedence(f: Foreign, x: Item)
    requires Renderable(x)
    ensures x.commandMarker.Some? ==> ItemView(f, x).tag == "command"
    ensures x.commandMarker.None? && x.toolName.Some? ==>
      ItemView(f, x).tag ==
        (var name := x.toolName.value;
         if name == "sequentialthinking" && IsToolCall(x) then "thinking"
         else if name == "AskUserQuestion" && IsToolCall(x) then "question"
         else if name == "AskUserQuestion" && x.toolOutput.Some? then "answer"
         else Lower(name))
    ensures x.commandMarker.None? && x.toolName.None? && x.toolsCollapsed.Some? ==> ItemView(f, x).tag == "tools"
    ensures x.commandMarker.None? && x.toolName.None? && x.toolsCollapsed.None? ==> ItemView(f, x).tag == Show(f, x.role)
  {
  }

  /** The contents of the branches without a tool: collapsed tools are counted, text is kept
      verbatim, and an item with nothing to show says so. */
  lemma PlainContents(f: Foreign, x: Item)
    requires Renderable(x)
    requires x.commandMarker.None? && x.toolName.None?
    ensures x.toolsCollapsed.Some? ==>
      ItemView(f, x).content == "[" + Decimal(x.toolsCollapsed.value) + " tools executed]"
    ensures x.toolsCollapsed.None? && x.text.Some? ==> ItemView(f, x).content == x.text.value
    ensures x.toolsCollapsed.None? && x.text.None? ==> ItemView(f, x).content == "[empty]"
  {
  }

  /** A tool that was neither called with input nor produced output shows `[executed]`. */
  lemma ExecutedToolContent(f: Foreign, x: Item)
    requires Renderable(x)
    requires x.commandMarker.None? && x.toolName.Some? && x.toolInput.None? && x.toolOutput.None?
    ensures ItemView(f, x) == View(Lower(x.toolName.value), "[executed]")
  {
  }

  /** A command block's content gives back the command's name and arguments, as long as the
      name holds no space. */
  lemma {:induction false} CommandLineRoundTrip(m: CommandMarker)
    requires ' ' !in m.name
    ensures |CommandLine(m)| >= 1 && CommandLine(m)[0] == '/'
    ensures ParseCommandLine(CommandLine(m)) == (m.name, m.args)
  {
    var line := CommandLine(m);
    var rest := line[1..];
    assert rest == m.name + (if m.args != "" then " " + m.args else "");
    forall i | 0 <= i < |m.name| ensures !IsAt(rest, " ", i) {
      assert rest[i] == m.name[i];
      assert rest[i] != ' ';
    }
    var k := Find(rest, " ", 0);
    if m.args != "" {
      assert IsAt(rest, " ", |m.name|);
      assert k == |m.name|;
      assert rest[k + 1..] == m.args;
    } else {
      assert rest == m.name;
      forall i | 0 <= i ensures !IsAt(rest, " ", i) {
      }
      assert k == -1;
    }
  }

  /** Indenting output lines loses nothing: dropping the four spaces again gives the output back. */
  lemma {:induction false} IndentRoundTrip(out: string)
    ensures Unindent(Indent(Split(out, "\n"))) == out
  {
    var lines := Split(out, "\n");
    var indented := seq(|lines|, i requires 0 <= i < |lines| => "    " + lines[i]);
    SplitPiecesAreFree(out, "\n");
    forall p | p in indented ensures '\n' !in p {
      var i :| 0 <= i < |lines| && indented[i] == p;
      NoOccurrenceNoChar(lines[i], '\n');
    }
    SplitJoin(indented, '\n');
    assert Split(Indent(lines), "\n") == indented;
    var dropped := seq(|indented|, i requires 0 <= i < |indented| =>
      if |indented[i]| >= 4 then indented[i][4..] else indented[i]);
    assert dropped == lines;
    JoinSplit(out, "\n");
  }

  /** Multi-line output is shown under the arrow, every line indented by four spaces;
      single-line output follows the arrow on the same line. */
  lemma ToolOutputLayout(f: Foreign, x: Item)
    requires Renderable(x)
    requires x.commandMarker.None? && x.toolName.Some? && x.toolOutput.Some?
    requires x.toolName.value != "AskUserQuestion"
    ensures var out := TruncateByToolType(f, x.toolOutput.value, x.toolName);
      var c := ItemView(f, x).content;
      && ('\n' in out ==> c == Arrow + "\n" + Indent(Split(out, "\n")) && Unindent(c[2..]) == out)
      && ('\n' !in out ==> c == Arrow + " " + out)
  {
    var out := TruncateByToolType(f, x.toolOutput.value, x.toolName);
    var c := ItemView(f, x).content;
    if '\n' in out {
      assert c[2..] == Indent(Split(out, "\n"));
      IndentRoundTrip(out);
    }
  }

  /** The answer to a question is shown whole, however long it is. */
  lemma AnswerIsVerbatim(f: Foreign, x: Item)
    requires Renderable(x)
    requires x.commandMarker.None? && x.toolName == Some("AskUserQuestion") && x.toolOutput.Some?
    ensures ItemView(f, x) == View("answer", x.toolOutput.value)
  {
  }

  /** A Write call reports the path and the length of the written content. */
  lemma {:induction false} WriteReportsLength(f: Foreign, path: Json, content: string, o: map<string, Json>)
    requires "file_path" in o && o["file_path"] == path
    requires "content" in o && o["content"] == JStr(content)
    ensures var c := ToolCallView(f, "Write", JObj(o)).content;
      var d := Decimal(|content|);
      && c == Show(f, path) + " (" + d + " chars)"
      && ParseDecimal(c[|c| - |d| - 7..|c| - 7]) == |content|
  {
    var c := ToolCallView(f, "Write", JObj(o)).content;
    var d := Decimal(|content|);
    assert c[|c| - |d| - 7..|c| - 7] == d;
    DecimalRoundTrip(|content|);
  }

  /** The item is a call of tool `name` with the `dict` input `o` and no output yet. */
  predicate CallOf(x: Item, name: string, o: map<string, Json>) {
    x.commandMarker.None? && x.toolName == Some(name) && x.toolInput == Some(JObj(o)) && x.toolOutput.None?
  }

  /** A call is rendered by the tool-call branch. */
  lemma CallView(f: Foreign, x: Item, name: string, o: map<string, Json>)
    requires CallOf(x, name, o) && InputOk(name, JObj(o))
    ensures Renderable(x)
    ensures ItemView(f, x) == ToolCallView(f, name, JObj(o))
  {
  }

  /** A shell call shows its command string, or the whole input when it has none. */
  lemma BashShowsCommand(f: Foreign, x: Item, o: map<string, Json>)
    requires CallOf(x, "Bash", o)
    ensures Renderable(x)
    ensures ItemView(f, x).tag == "bash"
    ensures "command" in o && o["command"].JStr? ==> ItemView(f, x).content == o["command"].s
    ensures "command" !in o ==> ItemView(f, x).content == f.show(JObj(o))
  {
    CallView(f, x, "Bash", o);
  }

  /** A read shows the file path, or the whole input when it has none. */
  lemma ReadShowsPath(f: Foreign, x: Item, o: map<string, Json>)
    requires CallOf(x, "Read", o)
    ensures Renderable(x)
    ensures ItemView(f, x).tag == "read"
    ensures "file_path" in o && o["file_path"].JStr? ==> ItemView(f, x).content == o["file_path"].s
    ensures "file_path" !in o ==> ItemView(f, x).content == f.show(JObj(o))
  {
    CallView(f, x, "Read", o);
  }

  /** An edit shows the path on the first line and, on the second, the `repr` of the first 50
      characters of the replaced and of the replacing text around an arrow. */
  lemma {:induction false} EditShowsSnippets(f: Foreign, x: Item, o: map<string, Json>,
                                             path: string, before: string, after: string)
    requires CallOf(x, "Edit", o)
    requires "file_path" in o && o["file_path"] == JStr(path) && '\n' !in path
    requires "old_string" in o && o["old_string"] == JStr(before)
    requires "new_string" in o && o["new_string"] == JStr(after)
    ensures Renderable(x)
    ensures var c := ItemView(f, x).content;
      var b := Take(before, 50);
      var a := Take(after, 50);
      && ItemView(f, x).tag == "edit"
      && c == path + "\n  " + f.repr(JStr(b)) + " " + Arrow + " " + f.repr(JStr(a))
      && c[..|path|] == path && c[|path|] == '\n'
      && |b| <= 50 && b <= before && |a| <= 50 && a <= after
  {
    CallView(f, x, "Edit", o);
    var b := Take(before, 50);
    var a := Take(after, 50);
    assert JsonTake(o["old_string"], 50) == JStr(b);
    assert JsonTake(o["new_string"], 50) == JStr(a);
    var c := ItemView(f, x).content;
    var rest := "\n  " + f.repr(JStr(b)) + " " + Arrow + " " + f.repr(JStr(a));
    assert c == path + rest;
  }

  /** A search shows the `repr` of the pattern and the path it searches, `.` by default. */
  lemma GrepShowsPatternAndPath(f: Foreign, x: Item, o: map<string, Json>)
    requires CallOf(x, "Grep", o)
    ensures Renderable(x)
    ensures ItemView(f, x) ==
      View("grep", f.repr(GetOr(o, "pattern", JStr(""))) + " in " + (if "path" in o then Show(f, o["path"]) else "."))
  {
    CallView(f, x, "Grep", o);
  }

  /** A glob shows its pattern, and nothing when it has none. */
  lemma GlobShowsPattern(f: Foreign, x: Item, o: map<string, Json>)
    requires CallOf(x, "Glob", o)
    ensures Renderable(x)
    ensures ItemView(f, x).tag == "glob"
    ensures "pattern" in o && o["pattern"].JStr? ==> ItemView(f, x).content == o["pattern"].s
    ensures "pattern" !in o ==> ItemView(f, x).content == ""
  {
    CallView(f, x, "Glob", o);
  }

  /** A thinking step is tagged `thinking` and shows the thought. */
  lemma ThinkingShowsThought(f: Foreign, x: Item, o: map<string, Json>)
    requires CallOf(x, "sequentialthinking", o)
    ensures Renderable(x)
    ensures ItemView(f, x).tag == "thinking"
    ensures "thought" in o && o["thought"].JStr? ==> ItemView(f, x).content == o["thought"].s
  {
    CallView(f, x, "sequentialthinking", o);
  }

  /** A question call lists one `Q: ` line per `dict` question, in order: when no rendered
      question spans lines, splitting the content at newlines gives exactly those lines. */
  lemma QuestionsAreListed(f: Foreign, x: Item, o: map<string, Json>, qs: seq<Json>)
    requires CallOf(x, "AskUserQuestion", o)
    requires "questions" in o && o["questions"] == JArr(qs) && qs != []
    requires DictQuestions(qs) != []
    requires forall i :: 0 <= i < |DictQuestions(qs)| ==> '\n' !in Show(f, DictQuestions(qs)[i])
    ensures Renderable(x)
    ensures var lines := Split(ItemView(f, x).content, "\n");
      && ItemView(f, x).tag == "question"
      && |lines| == |DictQuestions(qs)|
      && forall i :: 0 <= i < |lines| ==> lines[i] == "Q: " + Show(f, DictQuestions(qs)[i])
  {
    CallView(f, x, "AskUserQuestion", o);
    var ds := DictQuestions(qs);
    assert ToolCallView(f, "AskUserQuestion", JObj(o)) == View("question", Join(QuestionLines(f, ds), "\n"));
    QuestionLinesSplit(f, ds);
  }

  /** Joined at newlines and split again, question lines come back one by one (splitting the
      empty string gives one empty piece, so at least one line is needed). */
  lemma QuestionLinesSplit(f: Foreign, ds: seq<Json>)
    requires ds != []
    requires forall i :: 0 <= i < |ds| ==> '\n' !in Show(f, ds[i])
    ensures Split(Join(QuestionLines(f, ds), "\n"), "\n") == QuestionLines(f, ds)
  {
    var ls := QuestionLines(f, ds);
    forall p | p in ls ensures '\n' !in p {
      var i :| 0 <= i < |ls| && ls[i] == p;
      assert p == "Q: " + Show(f, ds[i]);
    }
    SplitJoin(ls, '\n');
  }

  /** An input summary of a tool outside the projected list is cut at 500 characters. */
  lemma OtherToolInputIsCapped(f: Foreign, name: string, input: Json)
    requires name !in InputProjectingTools
    ensures ToolCallView(f, name, input) == View(Lower(name), Take(Show(f, input), 500))
    ensures |ToolCallView(f, name, input).content| <= 500
  {
  }

  /** No items render as the empty string; one more item adds a blank line and its block,
      numbered one past the others. */
  lemma XmlAppend(f: Foreign, items: seq<Item>, x: Item)
    requires forall i :: 0 <= i < |items| ==> Renderable(items[i])
    requires Renderable(x)
    ensures FormatItemsToXml(f, []) == ""
    ensures items == [] ==> FormatItemsToXml(f, [x]) == FormatItemToXml(f, x, 1)
    ensures items != [] ==>
      FormatItemsToXml(f, items + [x]) == FormatItemsToXml(f, items) + "\n\n" + FormatItemToXml(f, x, |items| + 1)
  {
    var all := items + [x];
    var blocks := seq(|items|, i requires 0 <= i < |items| => FormatItemToXml(f, items[i], i + 1));
    var blocks' := seq(|all|, i requires 0 <= i < |all| => FormatItemToXml(f, all[i], i + 1));
    assert blocks' == blocks + [FormatItemToXml(f, x, |items| + 1)];
    if items != [] {
      JoinAppend(blocks, FormatItemToXml(f, x, |items| + 1), "\n\n");
    } else {
      assert blocks' == [FormatItemToXml(f, x, 1)];
    }
  }

  /**
   * The JSONL output loses nothing: provided `json.dumps` writes no raw newline and
   * `json.loads` reads its output back, every line parses back into its item.
   */
  lemma {:induction false} JsonlRoundTrip(f: Foreign, items: seq<Item>)
    requires items != []
    requires forall i :: 0 <= i < |items| ==> '\n' !in f.dumps(ItemToJson(items[i]))
    requires forall i :: 0 <= i < |items| ==> f.loads(f.dumps(ItemToJson(items[i]))) == ItemToJson(items[i])
    ensures ParseJsonl(f, FormatItemsToJsonl(f, items)) == seq(|items|, i requires 0 <= i < |items| => Some(items[i]))
  {
    var lines := seq(|items|, i requires 0 <= i < |items| => f.dumps(ItemToJson(items[i])));
    forall p | p in lines ensures '\n' !in p {
      var i :| 0 <= i < |items| && lines[i] == p;
    }
    SplitJoin(lines, '\n');
    assert Split(FormatItemsToJsonl(f, items), "\n") == lines;
    forall i | 0 <= i < |items| ensures ItemFromJson(f.loads(lines[i])) == Some(items[i]) {
      ItemJsonRoundTrip(items[i]);
    }
  }
}
