# Conversation extractor — a Dafny model

This project models the conversation extractor of the team plugin. The extractor reads a
conversation log (one JSON record per line) and keeps only the essentials: user and
assistant text, tool calls with their inputs, tool results, and slash-command invocations
paired with the template text that follows them. It then formats what it kept as numbered XML
blocks or as JSONL, and splits the result into chunks under a token budget. Alongside it is
the small skill-discovery lister, which reads markdown front matter and selects skills and
commands whose description names a discovery phase.

The model has one module per source concern. Each file is directly under this directory.

- `wrappers.dfy`: `Option`.
- `strings.dfy`: the `str` operations the source relies on, modelled on `seq<char>`.
  `find` from a start index, `split`/`join`, `strip`, `lower`, slicing and decimal
  rendering, with their round trips.
- `json.dfy`: the decoded JSON value, Python truthiness, and `dict.get`. It also holds the
  `Foreign` bundle of functions the model cannot see: `json.dumps` (plain, sorted, indented),
  `json.loads`, MD5, `str()`, `repr()` and `:.1f` formatting.
- `paths.dfy`: `pathlib`'s `stem` and `suffix`.
- `items.dfy`: the extracted item (a dict with optional keys in the source) and its JSON form.
- `truncation.dfy`: the binary/base64 detector, the summary that replaces binary payloads, and
  per-tool truncation (`helpers/truncation.py`).
- `extraction_helpers.dfy`: message ids, command-marker parsing (the two regular expressions as
  leftmost, shortest searches), content access, tool-use discovery, text extraction and the
  inclusion filter (`helpers/extraction.py`).
- `conversation.dfy`: `extract_essentials`. `StepSpec`/`FinishSpec` say what one record and
  the end of the stream do to the extractor's state. The `Extractor` class keeps the same
  five variables as fields: the output list, the pending marker, the marker buffer and the
  two tool registries. Its methods update them in place and are proved to agree with
  `StepSpec`/`FinishSpec`.
- `chunking.dfy`: `chunk_by_tokens` as a loop proved to build *the* greedy partition (which is
  shown unique), the chunk file names of `write_chunks`, and the `--last` slice.
- `formatters.dfy`: `format_item_to_xml` (tag and content for every item kind),
  `format_items_to_xml` and `format_items_to_jsonl`. The XML rendering is lossy by design:
  other tools' output is cut to 1000 characters, edit snippets to 50, a written file is shown
  only by its length, other tools' input is cut to 500 characters, and ids and timestamps are
  never rendered. The round trips proved are only these: each JSONL line parses back to its
  item (given a serializer that round-trips), an indented tool output unindents back to the
  output, and a command line `/name args` gives back a name without spaces and its args.
- `skill_discovery.dfy`: `extract_frontmatter` (a loop over the front-matter lines), phase
  matching, display names and the plugin install-path selection of
  `list_skills_by_discovery.py`.

Three behaviours of the code that are easy to misread:

- An item is not limited to one payload kind. A record can carry text together with a tool
  output, or text together with the `executed` marker. In the second case the item goes to the
  marker buffer instead of being routed: its text is never checked for a command marker and
  never completes a pending one. A buffer holding only that item is output unchanged, text
  included. In a run of two or more markers only the first item survives, as the copy that
  counts the run, so the texts of the later items are lost.
- The base64 trigger looks for `"base64"` *with* its quotes in the first 500 characters.
- A front matter that starts with `----` is not always empty. `find('---', 3)` only finds the
  closing fence at index 3 when the text starts with six dashes (`SixDashesGiveNothing`).
  With four or five dashes, a closing `---` further on still delimits a front matter.

## Model

| member | source | states |
|---|---|---|
| Strings.Find | plugins/claude-code-team-plugin/lib/list_skills_by_discovery.py:23 | `str.find` from a start index: the leftmost occurrence at or after it, or -1 exactly when there is none |
| Strings.Take | plugins/claude-code-team-plugin/lib/helpers/truncation.py:21 | `s[:n]` is the prefix of length min(n, len(s)) |
| Strings.Split | plugins/claude-code-team-plugin/lib/list_skills_by_discovery.py:30 | `split` always yields at least one piece |
| Strings.JoinSplit | plugins/claude-code-team-plugin/lib/helpers/formatters.py:80 | joining the pieces of `s.split(sep)` with `sep` gives back `s` |
| Strings.SplitPiecesAreFree | plugins/claude-code-team-plugin/lib/list_skills_by_discovery.py:30 | no piece of a split contains the separator |
| Strings.SplitJoin | plugins/claude-code-team-plugin/lib/helpers/extraction.py:81 | splitting a one-character-separator join of separator-free parts gives the parts back |
| Strings.JoinAppend | plugins/claude-code-team-plugin/lib/helpers/formatters.py:105 | joining one more part appends the separator and that part |
| Strings.LStrip | plugins/claude-code-team-plugin/lib/list_skills_by_discovery.py:33 | only whitespace is removed from the left, and the result does not start with whitespace |
| Strings.RStrip | plugins/claude-code-team-plugin/lib/list_skills_by_discovery.py:33 | only whitespace is removed from the right, and the result does not end with whitespace |
| Strings.LStripIsSuffix | plugins/claude-code-team-plugin/lib/list_skills_by_discovery.py:27 | left-stripping keeps a suffix of the string |
| Strings.RStripIsPrefix | plugins/claude-code-team-plugin/lib/list_skills_by_discovery.py:27 | right-stripping keeps a prefix of the string |
| Strings.Lower | plugins/claude-code-team-plugin/lib/helpers/formatters.py:28 | `lower()` keeps the length and lowers each character |
| Strings.Decimal | plugins/claude-code-team-plugin/lib/helpers/formatters.py:45 | `str(n)` of a natural number is a non-empty string of digits |
| Strings.DecimalRoundTrip | plugins/claude-code-team-plugin/lib/helpers/formatters.py:45 | the rendered count parses back to the number |
| Strings.DecimalInjective | plugins/claude-code-team-plugin/lib/helpers/formatters.py:90 | different counts render differently |
| Json.GetNone | plugins/claude-code-team-plugin/lib/extract_conversation.py:67 | `dict.get(key)` is `None` exactly when the key is missing or maps to `null`; a truthy result is the stored value |
| Paths.LastDot | plugins/claude-code-team-plugin/lib/extract_conversation.py:260-261 | the index of the last dot of the name, or -1 when there is none |
| Paths.Suffix | plugins/claude-code-team-plugin/lib/extract_conversation.py:261 | the suffix is empty when the last dot is missing, leads or ends the name; otherwise it is a tail of the name made of a dot and at least one dot-free character |
| Paths.Stem | plugins/claude-code-team-plugin/lib/extract_conversation.py:260 | stem followed by suffix is exactly the file name |
| Paths.StemOfExtension | plugins/claude-code-team-plugin/lib/list_skills_by_discovery.py:77-83 | `name.ext` with a non-empty name and a dot-free extension splits into `name` and `.ext` |
| Items.ItemToJsonField | plugins/claude-code-team-plugin/lib/extract_conversation.py:87-135 | a key is in the item's dict exactly when the item has that field, and it holds the field's value |
| Items.ItemJsonRoundTrip | plugins/claude-code-team-plugin/lib/helpers/formatters.py:108-110 | every item can be read back from its dict form, so the JSONL output loses no field |
| Truncation.RemoveSpacesAndNewlines | plugins/claude-code-team-plugin/lib/helpers/truncation.py:36 | the result holds no space or newline and only characters of the input |
| Truncation.RemoveSpacesSingle | plugins/claude-code-team-plugin/lib/helpers/truncation.py:36 | one character is dropped exactly when it is a space or a newline |
| Truncation.RemoveSpacesAppend | plugins/claude-code-team-plugin/lib/helpers/truncation.py:36 | the removal works character by character, so every other character is kept in order |
| Truncation.Base64AfterRemoval | plugins/claude-code-team-plugin/lib/helpers/truncation.py:35-36 | the cleaned sample is all base64 exactly when every sample character is base64, a space or a newline |
| Truncation.DataPrefixTriggers | plugins/claude-code-team-plugin/lib/helpers/truncation.py:15-19 | a long enough text that starts with `data:` is flagged |
| Truncation.MagicSignatureTriggers | plugins/claude-code-team-plugin/lib/helpers/truncation.py:21-27 | a long enough text with a PDF, PNG or JPEG signature ending within its first 1000 characters is flagged |
| Truncation.Base64KeyTriggers | plugins/claude-code-team-plugin/lib/helpers/truncation.py:28-29 | a text over 10000 characters with `"base64"` ending within its first 500 characters is flagged |
| Truncation.LongBase64Triggers | plugins/claude-code-team-plugin/lib/helpers/truncation.py:32-37 | a text over 50000 characters whose 500-character middle sample is base64 apart from spaces and newlines is flagged |
| Truncation.FlaggedHasTrigger | plugins/claude-code-team-plugin/lib/helpers/truncation.py:13-39 | a flagged text reaches the minimum length and starts with `data:`, has a signature, or is over 10000 characters |
| Strings.ContainsInTake | plugins/claude-code-team-plugin/lib/helpers/truncation.py:21-29 | `sub in s[:k]` holds exactly when some occurrence of `sub` ends within the first `k` characters |
| Truncation.NoEarlyTriggerNoSignature | plugins/claude-code-team-plugin/lib/helpers/truncation.py:21-29 | with no signature ending in the first 1000 characters there is no signature in `text[:1000]`, and likewise for `"base64"` in `text[:500]` |
| Truncation.UntriggeredIsKept | plugins/claude-code-team-plugin/lib/helpers/truncation.py:13-39 | a text of at most 50000 characters without a data URI, an early signature or (over 10000 characters) an early `"base64"` is not flagged |
| Truncation.NonBase64MiddleIsKept | plugins/claude-code-team-plugin/lib/helpers/truncation.py:31-39 | such a text is not flagged either when one character of its 500-character middle sample is neither base64 nor a space or newline |
| Truncation.LowerMinimumFlagsMore | plugins/claude-code-team-plugin/lib/helpers/truncation.py:15-16 | lowering the minimum length never unflags a text |
| Truncation.SizeString | plugins/claude-code-team-plugin/lib/helpers/truncation.py:50-55 | a size of at most 1000 bytes is the plain integer followed by `B` |
| Truncation.TruncateBinaryContent | plugins/claude-code-team-plugin/lib/helpers/truncation.py:42-45 | a text the detector does not flag is returned unchanged |
| Truncation.ShortTextIsKept | plugins/claude-code-team-plugin/lib/helpers/truncation.py:15-16 | a text under 1000 characters is never flagged and passes through |
| Truncation.SummaryShape | plugins/claude-code-team-plugin/lib/helpers/truncation.py:47-71 | a flagged text becomes `[tool: TYPE size]` with the decoded size floor(3·len/4): its integer and `B` up to 1000, its one-decimal thousands and `KB` up to 1000000, its one-decimal millions and `MB` beyond |
| Truncation.DataUriIsSummarised | plugins/claude-code-team-plugin/lib/helpers/truncation.py:18-19 | a long enough data URI is always replaced by a bracketed summary |
| Truncation.ContentTypePrecedence | plugins/claude-code-team-plugin/lib/helpers/truncation.py:57-68 | PDF wins over PNG, PNG over JPEG, and a signature always yields one of the three |
| Truncation.TruncateByToolType | plugins/claude-code-team-plugin/lib/helpers/truncation.py:74-88 | short output and full-output tools are untouched, and any change is exactly the first 1000 chars plus the truncation marker |
| Truncation.TruncationKeepsHead | plugins/claude-code-team-plugin/lib/helpers/truncation.py:81-88 | whatever the tool, the first 1000 characters survive verbatim |
| Truncation.LongOutputIsCut | plugins/claude-code-team-plugin/lib/helpers/truncation.py:84-88 | a long output of any other tool is always cut, and the marker ends the result |
| ExtractionHelpers.MessageId | plugins/claude-code-team-plugin/lib/helpers/extraction.py:12-20 | the id is at most 12 characters |
| ExtractionHelpers.MessageIdFields | plugins/claude-code-team-plugin/lib/helpers/extraction.py:14-19 | the id depends only on role, text, tool output and command marker |
| ExtractionHelpers.NameMatchEnd | plugins/claude-code-team-plugin/lib/helpers/extraction.py:30 | from a given start, the shortest `<command-name>…</command-name>` match on one line, or none at all |
| ExtractionHelpers.FirstNameMatch | plugins/claude-code-team-plugin/lib/helpers/extraction.py:30 | `re.search` semantics: the leftmost match, and no match at all when it returns none |
| ExtractionHelpers.NameMatchUnique | plugins/claude-code-team-plugin/lib/helpers/extraction.py:30 | the lazy name group ends at the first closing tag: a match start fixes its end |
| ExtractionHelpers.ArgsMatchUnique | plugins/claude-code-team-plugin/lib/helpers/extraction.py:34 | the lazy args group (newlines allowed) ends at the first closing tag |
| ExtractionHelpers.FirstArgsMatch | plugins/claude-code-team-plugin/lib/helpers/extraction.py:34 | the leftmost `<command-args>` match, or none when there is no match |
| ExtractionHelpers.CommandArgs | plugins/claude-code-team-plugin/lib/helpers/extraction.py:34-35 | no match gives `''`; otherwise the stripped group of the leftmost match |
| ExtractionHelpers.ParseCommandInfo | plugins/claude-code-team-plugin/lib/helpers/extraction.py:28-36 | `None` exactly when there is no name match; otherwise the leftmost name group and the args |
| ExtractionHelpers.LeftmostNameMatch | plugins/claude-code-team-plugin/lib/helpers/extraction.py:30 | any name match with no match further left is the one the search returns |
| ExtractionHelpers.LeftmostArgsMatch | plugins/claude-code-team-plugin/lib/helpers/extraction.py:34 | any args match with no match further left is the one the search returns |
| ExtractionHelpers.NameGroupIsClean | plugins/claude-code-team-plugin/lib/helpers/extraction.py:30 | a matched name holds no newline and no closing tag |
| ExtractionHelpers.ParsedNameIsOneLine | plugins/claude-code-team-plugin/lib/helpers/extraction.py:28-33 | a parsed command name is one line without a closing tag |
| ExtractionHelpers.GetMessageContent | plugins/claude-code-team-plugin/lib/helpers/extraction.py:39-47 | no message exactly when `message` is falsy; the content is the list when it is one, and `[]` otherwise |
| ExtractionHelpers.ShortToolName | plugins/claude-code-team-plugin/lib/helpers/extraction.py:59-64 | a name without the `mcp__` prefix is kept |
| Strings.JoinEndsWithLast | plugins/claude-code-team-plugin/lib/helpers/extraction.py:61-62 | a join ends with its last part |
| Strings.LastPieceFollowsSeparator | plugins/claude-code-team-plugin/lib/helpers/extraction.py:61-62 | when the separator occurs, the last piece of a split comes right after an occurrence of it |
| ExtractionHelpers.ShortToolNameIsSuffix | plugins/claude-code-team-plugin/lib/helpers/extraction.py:60-62 | an MCP name is shortened to the tail that follows an occurrence of `__` and holds no `__` itself |
| ExtractionHelpers.FindToolUseItems | plugins/claude-code-team-plugin/lib/helpers/extraction.py:50-66 | at most one tool use per content item |
| ExtractionHelpers.FindToolUseItemsSingle | plugins/claude-code-team-plugin/lib/helpers/extraction.py:52-66 | one item yields its (id, short name, input) exactly when it is a `tool_use` dict |
| ExtractionHelpers.FindToolUseItemsAppend | plugins/claude-code-team-plugin/lib/helpers/extraction.py:52 | the generator works item by item: concatenated content yields concatenated uses |
| ExtractionHelpers.FirstToolResultWins | plugins/claude-code-team-plugin/lib/helpers/extraction.py:69-74 | the `tool_use_id` of the first `tool_result` item, or `None` when there is none |
| ExtractionHelpers.FirstToolResultAt | plugins/claude-code-team-plugin/lib/helpers/extraction.py:69-74 | when item `i` is the first `tool_result`, its `tool_use_id` is the result |
| ExtractionHelpers.TextsEmpty | plugins/claude-code-team-plugin/lib/helpers/extraction.py:79-80 | there are no texts exactly when no item is a dict with `text` |
| ExtractionHelpers.TextsSingle | plugins/claude-code-team-plugin/lib/helpers/extraction.py:79-80 | one item contributes its `text` exactly when it is a dict with that key |
| ExtractionHelpers.TextsAppend | plugins/claude-code-team-plugin/lib/helpers/extraction.py:79-80 | the comprehension works item by item: concatenated content gives concatenated texts, in order |
| ExtractionHelpers.ExtractTextsFromContent | plugins/claude-code-team-plugin/lib/helpers/extraction.py:77-81 | `None` exactly when no item carries text; otherwise the texts joined by newlines |
| ExtractionHelpers.TextsRecoverable | plugins/claude-code-team-plugin/lib/helpers/extraction.py:81 | for one-line texts, splitting the joined result at newlines gives the texts back |
| ExtractionHelpers.IncludeIsMonotone | plugins/claude-code-team-plugin/lib/helpers/extraction.py:84-105 | turning on more flags never excludes an item that was included |
| ExtractionHelpers.NoFlagsIncludeNothing | plugins/claude-code-team-plugin/lib/helpers/extraction.py:84-105 | with no flag set nothing is included |
| ExtractionHelpers.IncludedItemHasPayload | plugins/claude-code-team-plugin/lib/helpers/extraction.py:93-105 | an included item has a tool key, text or a command marker; without a tool key it is a user or assistant item; without `--tools` it has text or a marker |
| Conversation.RegisteredIdsExact | plugins/claude-code-team-plugin/lib/extract_conversation.py:75-78 | an id is registered exactly when it is truthy and some tool use of the record carries it |
| Conversation.RegisterNamesContents | plugins/claude-code-team-plugin/lib/extract_conversation.py:75-78 | the name registry gains exactly the truthy ids, keeps other entries, and maps each id to the name of its last use |
| Conversation.RegisterInputs | plugins/claude-code-team-plugin/lib/extract_conversation.py:78 | the input registry only grows |
| Conversation.LastRegistered | plugins/claude-code-team-plugin/lib/extract_conversation.py:79-80 | the last use with a truthy id, whose name and input become the record's |
| Conversation.RegisterOneMore | plugins/claude-code-team-plugin/lib/extract_conversation.py:75-80 | one more tool use updates both registries and the last-registered index as one loop iteration does |
| Conversation.TextOf | plugins/claude-code-team-plugin/lib/extract_conversation.py:99-105 | string content is the text as is; for other content the text is the joined texts exactly when the list is non-empty and its join is non-empty, and absent otherwise |
| Conversation.BuildItem | plugins/claude-code-team-plugin/lib/extract_conversation.py:86-135 | the item's id is its message id; `tool_name`, `tool_input` and `timestamp` are present exactly when truthy or present in the source |
| Conversation.BuildItemFields | plugins/claude-code-team-plugin/lib/extract_conversation.py:96-133 | the role (default `unknown`), the text chosen by `TextOf`, and the timestamp, tool name and tool input values of the record |
| Conversation.ToolResultMapping | plugins/claude-code-team-plugin/lib/extract_conversation.py:110-128 | how each kind of `toolUseResult` becomes the executed marker or the binary-summarised output (of the string, of the indented dump, or of the joined texts of a list), and never both |
| Conversation.Collapse | plugins/claude-code-team-plugin/lib/extract_conversation.py:143-153 | one buffered marker is kept as is; two or more become one copy of the first with the count and without the marker |
| Conversation.EmittedFilters | plugins/claude-code-team-plugin/lib/extract_conversation.py:145-151 | every item let through passes the filter and comes from the input, and every input item that passes is let through |
| Conversation.EmittedSingle | plugins/claude-code-team-plugin/lib/extract_conversation.py:145-151 | one item is let through exactly when the filter accepts it |
| Conversation.EmittedAppend | plugins/claude-code-team-plugin/lib/extract_conversation.py:145-151 | the filter works item by item: the items let through keep their order and multiplicity |
| Conversation.Extractor.constructor | plugins/claude-code-team-plugin/lib/extract_conversation.py:55-59 | all five variables start empty |
| Conversation.Extractor.EmitToolMarkers | plugins/claude-code-team-plugin/lib/extract_conversation.py:143-153 | appends the filtered collapse of the buffer and changes nothing else |
| Conversation.Extractor.RegisterTools | plugins/claude-code-team-plugin/lib/extract_conversation.py:70-84 | the loop leaves the registries and the record's tool name and input as the scan specifies, and touches nothing else |
| Conversation.Extractor.RouteItem | plugins/claude-code-team-plugin/lib/extract_conversation.py:155-184 | the state after routing a non-marker item agrees with `Route` |
| Conversation.Extractor.Handle | plugins/claude-code-team-plugin/lib/extract_conversation.py:137-184 | the state after one item agrees with `Dispatch` |
| Conversation.Extractor.Step | plugins/claude-code-team-plugin/lib/extract_conversation.py:62-188 | the state after one record agrees with `StepSpec` |
| Conversation.Extractor.Finish | plugins/claude-code-team-plugin/lib/extract_conversation.py:190-202 | the returned list agrees with `FinishSpec` |
| Conversation.ExtractEssentials | plugins/claude-code-team-plugin/lib/extract_conversation.py:50-202 | the result is `Extract` of the records, and every returned item passes `should_include` |
| Conversation.FlushedPreservesInvariant | plugins/claude-code-team-plugin/lib/extract_conversation.py:143-153 | flushing keeps "every output item is included" |
| Conversation.RoutePreservesInvariant | plugins/claude-code-team-plugin/lib/extract_conversation.py:155-184 | routing keeps the invariant |
| Conversation.DispatchPreservesInvariant | plugins/claude-code-team-plugin/lib/extract_conversation.py:137-184 | handling an item keeps the invariant |
| Conversation.StepPreservesInvariant | plugins/claude-code-team-plugin/lib/extract_conversation.py:62-188 | a record keeps the invariant |
| Conversation.RunPreservesInvariant | plugins/claude-code-team-plugin/lib/extract_conversation.py:62-188 | the whole stream keeps the invariant |
| Conversation.ExtractOutputsIncluded | plugins/claude-code-team-plugin/lib/extract_conversation.py:190-202 | every returned item satisfies the filter |
| Conversation.SkippedRecordLeavesStateUnchanged | plugins/claude-code-team-plugin/lib/extract_conversation.py:66-94 | malformed lines, summaries and records without a message change nothing |
| Conversation.ExecutedIsBuffered | plugins/claude-code-team-plugin/lib/extract_conversation.py:137-140 | an executed item is buffered, nothing is output, and the pending marker stays |
| Conversation.OtherItemsFlushBuffer | plugins/claude-code-team-plugin/lib/extract_conversation.py:142-153 | any other item first outputs the filtered collapse and empties the buffer |
| Conversation.CommandMarkerBecomesPending | plugins/claude-code-team-plugin/lib/extract_conversation.py:155-165 | a parsable marker replaces the pending marker and is not output |
| Conversation.TemplateConsumesPending | plugins/claude-code-team-plugin/lib/extract_conversation.py:167-179 | the next text item is the template: the marker item is output with the command marker, its own id, role and timestamp, and without text, and the marker is cleared |
| Conversation.TextlessItemKeepsMarker | plugins/claude-code-team-plugin/lib/extract_conversation.py:168 | an item without text never touches the pending marker |
| Conversation.PlainItemOutput | plugins/claude-code-team-plugin/lib/extract_conversation.py:181-184 | with no marker pending, an item is output exactly when it has text, output or a tool name and passes the filter |
| Conversation.DispatchExtendsOutput | plugins/claude-code-team-plugin/lib/extract_conversation.py:137-184 | handling an item only appends to the output |
| Conversation.StepExtendsOutput | plugins/claude-code-team-plugin/lib/extract_conversation.py:62-188 | a record only appends to the output |
| Conversation.DispatchKeepsRegistries | plugins/claude-code-team-plugin/lib/extract_conversation.py:137-184 | item handling leaves the tool registries alone |
| Conversation.StepKeepsRegisteredNames | plugins/claude-code-team-plugin/lib/extract_conversation.py:73-80 | a tool name once registered stays resolvable |
| Conversation.FinishIgnoresPendingMarker | plugins/claude-code-team-plugin/lib/extract_conversation.py:190-202 | a marker still pending at the end is dropped |
| Conversation.FinishCollapsesRun | plugins/claude-code-team-plugin/lib/extract_conversation.py:195-200 | a final run of n >= 2 markers yields one collapsed item counting n, with the first marker's id |
| Chunking.AppendChunk | plugins/claude-code-team-plugin/lib/extract_conversation.py:242-243 | closing a non-empty chunk keeps every chunk within budget and extends the flattening by it |
| Chunking.CloseChunk | plugins/claude-code-team-plugin/lib/extract_conversation.py:234-237 | on overflow the chunk is closed and the item starts a new one, keeping the loop invariant |
| Chunking.ExtendChunk | plugins/claude-code-team-plugin/lib/extract_conversation.py:238-240 | otherwise the item joins the current chunk and its tokens are added |
| Chunking.CloseLast | plugins/claude-code-team-plugin/lib/extract_conversation.py:242-245 | after the loop the chunks form the greedy partition |
| Chunking.ChunkByTokens | plugins/claude-code-team-plugin/lib/extract_conversation.py:215-245 | the chunks are the greedy partition: non-empty, in order, concatenating to the items, each within budget unless it is a single item, and each closed only when the next item would overflow it |
| Chunking.TokensAppend | plugins/claude-code-team-plugin/lib/extract_conversation.py:232-240 | token counts add up over concatenation |
| Chunking.TokensPrefix | plugins/claude-code-team-plugin/lib/extract_conversation.py:234 | a prefix costs no more than the whole |
| Chunking.FlattenCons | plugins/claude-code-team-plugin/lib/extract_conversation.py:226-245 | flattening peels off the first chunk |
| Chunking.GreedyTail | plugins/claude-code-team-plugin/lib/extract_conversation.py:226-245 | the first chunk is a prefix of the items and the rest partition the remainder greedily |
| Chunking.PrefixOverflows | plugins/claude-code-team-plugin/lib/extract_conversation.py:234 | a longer prefix than one the next item overflows is itself over budget |
| Chunking.TokensLast | plugins/claude-code-team-plugin/lib/extract_conversation.py:232-240 | the token count of a prefix one item longer grows by that item's cost |
| Chunking.GreedyHeadNotShorter | plugins/claude-code-team-plugin/lib/extract_conversation.py:226-245 | no greedy first chunk is shorter than another |
| Chunking.GreedyHeadsAgree | plugins/claude-code-team-plugin/lib/extract_conversation.py:226-245 | two greedy partitions share their first chunk |
| Chunking.GreedyPartitionUnique | plugins/claude-code-team-plugin/lib/extract_conversation.py:226-245 | the greedy partition of a list is unique, so the method's result is determined |
| Chunking.SmallInputIsOneChunk | plugins/claude-code-team-plugin/lib/extract_conversation.py:234-243 | items within budget form a single chunk |
| Chunking.ChunkNamesUnique | plugins/claude-code-team-plugin/lib/extract_conversation.py:253-265 | one name per chunk, the base name for a single chunk, and no two chunks share a name |
| Chunking.MiddleUnique | plugins/claude-code-team-plugin/lib/extract_conversation.py:265 | a common prefix and equal-length tails fix the middle |
| Chunking.ChunkNamesDistinct | plugins/claude-code-team-plugin/lib/extract_conversation.py:264-265 | different chunk numbers give different file names |
| Chunking.ChunkNameShape | plugins/claude-code-team-plugin/lib/extract_conversation.py:260-265 | each name is stem + `_chunk` + number + the suffix, or `.txt` when there is none |
| Chunking.LastN | plugins/claude-code-team-plugin/lib/extract_conversation.py:329-330 | `--last n` with n > 0 keeps the last min(n, len) items; otherwise everything is kept |
| Formatters.JsonTake | plugins/claude-code-team-plugin/lib/helpers/formatters.py:39-40 | `[:50]` on a string or a list is its prefix of length min(50, len) |
| Formatters.DictQuestions | plugins/claude-code-team-plugin/lib/helpers/formatters.py:61 | at most one question per entry, and none when no entry is a dict |
| Formatters.DictQuestionsSingle | plugins/claude-code-team-plugin/lib/helpers/formatters.py:61 | an entry contributes its `question` (default `''`) exactly when it is a dict |
| Formatters.DictQuestionsAppend | plugins/claude-code-team-plugin/lib/helpers/formatters.py:61 | the comprehension works entry by entry, so the questions keep their order |
| Formatters.QuestionsAreListed | plugins/claude-code-team-plugin/lib/helpers/formatters.py:57-63 | a question call is tagged `question` and, when no rendered question spans lines, its content splits into one `Q: ` line per dict question, in order |
| Formatters.QuestionLinesSplit | plugins/claude-code-team-plugin/lib/helpers/formatters.py:62-63 | joining the `Q: ` lines with newlines and splitting again gives the same lines, one per question, when no question renders with a newline |
| Formatters.ToolCallView | plugins/claude-code-team-plugin/lib/helpers/formatters.py:26-67 | the tag is the lowered tool name (except thinking and question), and the input of any other tool is shown in at most 500 characters |
| Formatters.CallView | plugins/claude-code-team-plugin/lib/helpers/formatters.py:25-67 | an item with a tool name and input but no output is rendered by the tool-call branch |
| Formatters.BashShowsCommand | plugins/claude-code-team-plugin/lib/helpers/formatters.py:33-34 | a shell call is tagged `bash` and shows its command, or `str(input)` without one |
| Formatters.ReadShowsPath | plugins/claude-code-team-plugin/lib/helpers/formatters.py:35-36 | a read is tagged `read` and shows its path, or `str(input)` without one |
| Formatters.EditShowsSnippets | plugins/claude-code-team-plugin/lib/helpers/formatters.py:37-41 | an edit shows the path on its own first line, then the `repr` of the first 50 characters of the old and the new text around an arrow |
| Formatters.GrepShowsPatternAndPath | plugins/claude-code-team-plugin/lib/helpers/formatters.py:46-49 | a search shows `repr(pattern) in path`, with `.` as the default path |
| Formatters.GlobShowsPattern | plugins/claude-code-team-plugin/lib/helpers/formatters.py:50-52 | a glob shows its pattern, and nothing without one |
| Formatters.ThinkingShowsThought | plugins/claude-code-team-plugin/lib/helpers/formatters.py:53-56 | a thinking step is tagged `thinking` and shows the thought |
| Formatters.BlockUnwrap | plugins/claude-code-team-plugin/lib/helpers/formatters.py:100 | a block is the opening tag, a newline, the content, a newline and the closing tag, all with the index |
| Formatters.TagPrecedence | plugins/claude-code-team-plugin/lib/helpers/formatters.py:17-97 | the tag follows the precedence command marker, tool name, collapsed run, role |
| Formatters.PlainContents | plugins/claude-code-team-plugin/lib/helpers/formatters.py:88-98 | collapsed runs say how many tools ran; text is shown as is; otherwise `[empty]` |
| Formatters.ExecutedToolContent | plugins/claude-code-team-plugin/lib/helpers/formatters.py:85-86 | a tool item with neither input nor output shows `[executed]` |
| Formatters.CommandLineRoundTrip | plugins/claude-code-team-plugin/lib/helpers/formatters.py:20-24 | the command line starts with `/` and gives back the name and args |
| Formatters.IndentRoundTrip | plugins/claude-code-team-plugin/lib/helpers/formatters.py:79-81 | removing the indentation restores the output exactly |
| Formatters.ToolOutputLayout | plugins/claude-code-team-plugin/lib/helpers/formatters.py:77-83 | truncated output goes on the arrow line when it has one line, and indented below the arrow otherwise |
| Formatters.AnswerIsVerbatim | plugins/claude-code-team-plugin/lib/helpers/formatters.py:74-76 | an answer is tagged `answer` and never truncated |
| Formatters.WriteReportsLength | plugins/claude-code-team-plugin/lib/helpers/formatters.py:42-45 | the Write summary reports the content length, which can be read back |
| Formatters.OtherToolInputIsCapped | plugins/claude-code-team-plugin/lib/helpers/formatters.py:66-67 | an unprojected tool shows `str(input)[:500]` under its lowered name |
| Formatters.XmlAppend | plugins/claude-code-team-plugin/lib/helpers/formatters.py:103-105 | no items give `''`; one more item adds a blank line and its block numbered from 1 |
| Formatters.JsonlRoundTrip | plugins/claude-code-team-plugin/lib/helpers/formatters.py:108-110 | when the serializer round-trips and emits one line per item, every JSONL line parses back to its item |
| SkillDiscovery.FrontmatterRegion | plugins/claude-code-team-plugin/lib/list_skills_by_discovery.py:19-27 | a region exists exactly when the text starts with a fence and another fence follows from index 3 |
| SkillDiscovery.FirstColon | plugins/claude-code-team-plugin/lib/list_skills_by_discovery.py:31-32 | the first colon of the line, or -1 when there is none |
| SkillDiscovery.ExtractFrontmatter | plugins/claude-code-team-plugin/lib/list_skills_by_discovery.py:17-35 | the loop builds the map of the parsed lines; no opening or closing fence gives `{}` |
| SkillDiscovery.BuildStep | plugins/claude-code-team-plugin/lib/list_skills_by_discovery.py:31-33 | an entry line sets its key; any other line changes nothing |
| SkillDiscovery.LastSettingWithoutLast | plugins/claude-code-team-plugin/lib/list_skills_by_discovery.py:30-33 | a final line that does not set the key does not change which line set it last |
| SkillDiscovery.BuildLastWins | plugins/claude-code-team-plugin/lib/list_skills_by_discovery.py:30-33 | a key is present exactly when some line sets it, and holds the value of the last such line |
| SkillDiscovery.EveryEntryLands | plugins/claude-code-team-plugin/lib/list_skills_by_discovery.py:30-33 | every entry line's key is in the result |
| SkillDiscovery.FrontmatterLinesLastWins | plugins/claude-code-team-plugin/lib/list_skills_by_discovery.py:30-33 | for a repeated key, the last line's stripped value wins |
| SkillDiscovery.SixDashesGiveNothing | plugins/claude-code-team-plugin/lib/list_skills_by_discovery.py:23-27 | a text starting with six dashes has an empty front matter |
| SkillDiscovery.EntryIsPartition | plugins/claude-code-team-plugin/lib/list_skills_by_discovery.py:31-33 | a line is an entry exactly when it has a colon; the key side has no colon, and key, colon and value rebuild the line |
| SkillDiscovery.SplitAtColon | plugins/claude-code-team-plugin/lib/list_skills_by_discovery.py:31-33 | splitting at the first colon leaves a colon-free key and rebuilds the line |
| SkillDiscovery.MatchingIsContainment | plugins/claude-code-team-plugin/lib/list_skills_by_discovery.py:59-60 | a skill matches exactly when `(discovery: phase)` occurs in its description; no description never matches |
| SkillDiscovery.PatternEndsThePhase | plugins/claude-code-team-plugin/lib/list_skills_by_discovery.py:46 | the pattern is the phase between `(discovery: ` and `)` |
| SkillDiscovery.CommandDisplayName | plugins/claude-code-team-plugin/lib/list_skills_by_discovery.py:83-84 | a command is shown with a leading `/` |
| SkillDiscovery.CommandNameDropsExtension | plugins/claude-code-team-plugin/lib/list_skills_by_discovery.py:77-84 | `name.md` is shown as `/name` |
| SkillDiscovery.PluginName | plugins/claude-code-team-plugin/lib/list_skills_by_discovery.py:156 | the plugin name holds no `@` |
| SkillDiscovery.PluginNameIsPrefix | plugins/claude-code-team-plugin/lib/list_skills_by_discovery.py:156-157 | `name@marketplace` is shown as `name:skill`, and a key without `@` is its own name |
| SkillDiscovery.SplitFirstPiece | plugins/claude-code-team-plugin/lib/list_skills_by_discovery.py:156 | the first piece of the split is everything before the first `@` |
| SkillDiscovery.SplitNoSeparator | plugins/claude-code-team-plugin/lib/list_skills_by_discovery.py:156 | without `@` the split is the key alone |
| SkillDiscovery.InstallPath | plugins/claude-code-team-plugin/lib/list_skills_by_discovery.py:119-131 | a path exists exactly for an enabled, installed plugin with a non-empty install list |
| SkillDiscovery.LatestInstallWins | plugins/claude-code-team-plugin/lib/list_skills_by_discovery.py:126-131 | for an enabled plugin only the last install entry counts, whatever it or the earlier entries hold besides: its `installPath`, or `''` without one |
| SkillDiscovery.ScannedPlugins | plugins/claude-code-team-plugin/lib/list_skills_by_discovery.py:119-131 | at most one scanned path per enabled-plugin entry |
| SkillDiscovery.ScannedPluginsAreSelected | plugins/claude-code-team-plugin/lib/list_skills_by_discovery.py:119-131 | a plugin is scanned exactly when it is enabled, installed and has a non-empty install list, at its latest path |

## Left out

- File input and output are left out: opening the log, reading skill files and writing chunk
  files. So are the directory walks of `find_skills_by_discovery`,
  `find_commands_by_discovery` and `find_plugin_skills_by_discovery`, beyond the pure steps
  modelled above, and both `main` functions with their argument parsing and printing.
- The install-path existence checks are left out. An install entry without `installPath`
  yields the empty path, which `pathlib` reads as the current directory.
- The token counter (tiktoken or its `len // 4` fallback) is a function parameter.
- The foreign functions are parameters of the model. These are JSON serialization and
  parsing, MD5, `str()`, `repr()` and `:.1f` formatting. Their outputs are only related to
  their inputs where a lemma says so.
- The regular expressions of `parse_command_info` are modelled as leftmost, shortest string
  searches, not by a regex engine.
- JSON numbers are integers. Floats are left out, as are dict key order and Python's
  `True == 1` key coalescing in the tool registries.
- Conversation.Processable: records on which the source raises an uncaught exception are
  excluded by a precondition, because the source aborts the whole run on them. These are a
  non-dict line, a truthy non-dict message, a non-string tool name or text, and an
  unhashable truthy id.
- Formatters.ItemView: items whose tool input would crash the formatter are likewise
  excluded, by `Renderable`. SkillDiscovery.InstallPath does the same with `InstallsOk`.
- `pending_tool_inputs` is written but never read, so only its keys are stated (`RegisterInputs`).
- The pending marker's timestamp is stored by the source but never read. The model does not
  keep it.
- `role` is always set by the extractor, so the formatter's and filter's `'unknown'` default
  for a missing role is not modelled.
- `TRUNCATE_TOOLS` and `SUMMARIZE_TOOLS` are declared but never used.
- Truncation.SizeString states the byte case only. The MB and KB renderings go through the
  foreign `:.1f` formatter.
- Strings.Lower lowers ASCII letters only. Python's `lower()` also lowers other alphabets.
- ExtractionHelpers.FindToolUseItems bounds the result's length only. What each item yields
  is stated by `FindToolUseItemsSingle` and `FindToolUseItemsAppend`.
- Conversation.RegisterInputs states only that the registry grows, because it is never read.
- ExtractionHelpers.ShortToolNameIsSuffix does not say which occurrence of `__` the tail
  follows when underscores run longer than two. For `x___y` the contract admits both `_y`
  and `y`; the left-to-right split that `ShortToolName` uses picks `_y`.
