/**
 * Truncation policy (helpers/truncation.py): recognising base64/binary payloads,
 * replacing them with a one-line summary, and cutting long tool output by tool kind.
 */
module Truncation {
  import opened Wrappers
  import opened Strings
  import opened Json

  /** Tools whose output is never shortened. */
  const FullOutputTools: set<string> := {"Bash", "Glob", "Task", "AskUserQuestion", "sequentialthinking"}

  /** Characters kept by `truncate_by_tool_type`. */
  const TruncateThreshold: nat := 1000

  /** The length below which `is_base64_content` never flags anything by default. */
  const DefaultMinLength: int := 1000

  predicate IsBase64Char(c: char) {
    ('A' <= c <= 'Z') || ('a' <= c <= 'z') || ('0' <= c <= '9') || c == '+' || c == '/' || c == '='
  }

  /** `s.replace(' ', '').replace('\n', '')`. */
  function RemoveSpacesAndNewlines(s: string): (r: string)
    ensures forall c :: c in r ==> c in s && c != ' ' && c != '\n'
  {
    if s == [] then []
    else (if s[0] == ' ' || s[0] == '\n' then [] else [s[0]]) + RemoveSpacesAndNewlines(s[1..])
  }

  predicate AllBase64(s: string) {
    forall i :: 0 <= i < |s| ==> IsBase64Char(s[i])
  }

  /** A PDF, PNG or JPEG signature in the first 1000 characters. */
  predicate HasMagicSignature(text: string) {
    var head := Take(text, 1000);
    Contains(head, "JVBERi") || Contains(head, "iVBORw") || Contains(head, "/9j/")
  }

  /** The 500-character sample taken at `len(text) // 2`. */
  function MiddleSample(text: string): string {
    Slice(text, |text| / 2, |text| / 2 + 500)
  }

  /** `is_base64_content(text, min_length)`. */
  predicate IsBase64Content(text: string, minLength: int) {
    if |text| < minLength then false
    else if StartsWith(text, "data:") then true
    else if HasMagicSignature(text) then true
    else if Contains(Take(text, 500), "\"base64\"") && |text| > 10000 then true
    else if |text| > 50000 && AllBase64(RemoveSpacesAndNewlines(MiddleSample(text))) then true
    else false
  }

  /** Removing one character keeps it unless it is a space or a newline. */
  lemma RemoveSpacesSingle(c: char)
    ensures RemoveSpacesAndNewlines([c]) == if c == ' ' || c == '\n' then [] else [c]
  {
  }

  /** The removal distributes over concatenation: with the one-character cases this says that
      exactly the spaces and newlines go and every other character stays, in order. */
  lemma {:induction false} RemoveSpacesAppend(a: string, b: string)
    ensures RemoveSpacesAndNewlines(a + b) == RemoveSpacesAndNewlines(a) + RemoveSpacesAndNewlines(b)
    decreases |a|
  {
    if a != [] {
      RemoveSpacesAppend(a[1..], b);
      assert (a + b)[1..] == a[1..] + b;
      assert (a + b)[0] == a[0];
    } else {
      assert a + b == b;
    }
  }

  predicate Base64OrBlank(c: char) {
    IsBase64Char(c) || c == ' ' || c == '\n'
  }

  lemma AllBase64Append(a: string, b: string)
    ensures AllBase64(a + b) <==> AllBase64(a) && AllBase64(b)
  {
    assert forall i :: 0 <= i < |a| ==> (a + b)[i] == a[i];
    assert forall i :: 0 <= i < |b| ==> (a + b)[|a| + i] == b[i];
  }

  /** What remains is all base64 exactly when every character of the sample is a base64
      character, a space or a newline. */
  lemma {:induction false} Base64AfterRemoval(s: string)
    ensures AllBase64(RemoveSpacesAndNewlines(s)) <==> forall i :: 0 <= i < |s| ==> Base64OrBlank(s[i])
    decreases |s|
  {
    if s != [] {
      var rest := RemoveSpacesAndNewlines(s[1..]);
      Base64AfterRemoval(s[1..]);
      var head := if s[0] == ' ' || s[0] == '\n' then [] else [s[0]];
      assert RemoveSpacesAndNewlines(s) == head + rest;
      AllBase64Append(head, rest);
      assert AllBase64(head) <==> Base64OrBlank(s[0]);
      assert (forall i :: 0 <= i < |s| ==> Base64OrBlank(s[i]))
        <==> Base64OrBlank(s[0]) && forall i :: 0 <= i < |s[1..]| ==> Base64OrBlank(s[1..][i])
      by {
        assert forall i :: 1 <= i < |s| ==> s[1..][i - 1] == s[i];
      }
    }
  }

  /** A long enough text that opens with a data URI is flagged. */
  lemma DataPrefixTriggers(text: string, minLength: int)
    requires |text| >= minLength && StartsWith(text, "data:")
    ensures IsBase64Content(text, minLength)
  {
  }

  /** A long enough text with a PDF, PNG or JPEG signature ending within its first 1000
      characters is flagged. */
  lemma MagicSignatureTriggers(text: string, minLength: int, sig: string, i: int)
    requires sig == "JVBERi" || sig == "iVBORw" || sig == "/9j/"
    requires IsAt(text, sig, i) && i + |sig| <= 1000
    requires |text| >= minLength
    ensures IsBase64Content(text, minLength)
  {
    var k := if 1000 <= |text| then 1000 else |text|;
    IsAtInPrefix(text, k, sig, i);
    ContainsAt(Take(text, 1000), sig, i);
    assert HasMagicSignature(text);
  }

  /** A text of more than 10000 characters with `"base64"` ending within its first 500
      characters is flagged (given the minimum length). */
  lemma Base64KeyTriggers(text: string, minLength: int, i: int)
    requires IsAt(text, "\"base64\"", i) && i + 8 <= 500
    requires |text| > 10000 && |text| >= minLength
    ensures IsBase64Content(text, minLength)
  {
    IsAtInPrefix(text, 500, "\"base64\"", i);
    ContainsAt(Take(text, 500), "\"base64\"", i);
  }

  /** A text of more than 50000 characters whose middle sample holds only base64 characters,
      spaces and newlines is flagged (given the minimum length). */
  lemma LongBase64Triggers(text: string, minLength: int)
    requires |text| > 50000 && |text| >= minLength
    requires var m := MiddleSample(text); forall i :: 0 <= i < |m| ==> Base64OrBlank(m[i])
    ensures IsBase64Content(text, minLength)
  {
    Base64AfterRemoval(MiddleSample(text));
  }

  /** Conversely, a flagged text is long enough and has a data URI, a signature, or more than
      10000 characters: a medium-length text needs one of the first two. */
  lemma FlaggedHasTrigger(text: string, minLength: int)
    requires IsBase64Content(text, minLength)
    ensures |text| >= minLength
    ensures StartsWith(text, "data:") || HasMagicSignature(text) || |text| > 10000
  {
  }

  /** None of the triggers that look at the start of a text fires: no data URI, no PDF, PNG or
      JPEG signature ending within the first 1000 characters, and, for a text over 10000
      characters, no `"base64"` ending within the first 500. */
  predicate NoEarlyTrigger(text: string) {
    && !StartsWith(text, "data:")
    && AbsentBefore(text, "JVBERi", 1000)
    && AbsentBefore(text, "iVBORw", 1000)
    && AbsentBefore(text, "/9j/", 1000)
    && (|text| <= 10000 || AbsentBefore(text, "\"base64\"", 500))
  }

  lemma NoEarlyTriggerNoSignature(text: string)
    requires NoEarlyTrigger(text)
    ensures !HasMagicSignature(text)
    ensures |text| > 10000 ==> !Contains(Take(text, 500), "\"base64\"")
  {
    ContainsInTake(text, "JVBERi", 1000);
    ContainsInTake(text, "iVBORw", 1000);
    ContainsInTake(text, "/9j/", 1000);
    ContainsInTake(text, "\"base64\"", 500);
  }

  /** The detector is otherwise false: a text of at most 50000 characters that none of the
      early triggers fires on is not flagged, whatever the minimum length. */
  lemma UntriggeredIsKept(text: string, minLength: int)
    requires |text| <= 50000 && NoEarlyTrigger(text)
    ensures !IsBase64Content(text, minLength)
  {
    NoEarlyTriggerNoSignature(text);
  }

  /** Beyond 50000 characters, one character of the middle sample that is neither base64 nor
      blank keeps an untriggered text from being flagged. */
  lemma NonBase64MiddleIsKept(text: string, minLength: int, j: int)
    requires NoEarlyTrigger(text)
    requires 0 <= j < |MiddleSample(text)| && !Base64OrBlank(MiddleSample(text)[j])
    ensures !IsBase64Content(text, minLength)
  {
    NoEarlyTriggerNoSignature(text);
    Base64AfterRemoval(MiddleSample(text));
  }

  /** Lowering the minimum length never unflags a text. */
  lemma LowerMinimumFlagsMore(text: string, m: int, m': int)
    requires m' <= m
    requires IsBase64Content(text, m)
    ensures IsBase64Content(text, m')
  {
  }

  /** The unit `truncate_binary_content` reports a size in. */
  datatype SizeUnit = Bytes | Kilobytes | Megabytes

  /** `int(len(text) * 0.75)`: the decoded size of a base64 payload. */
  function OriginalSize(encodedLength: nat): nat {
    encodedLength * 3 / 4
  }

  function UnitFor(size: nat): SizeUnit {
    if size > 1_000_000 then Megabytes else if size > 1_000 then Kilobytes else Bytes
  }

  /** `size_str`: one decimal for MB and KB, a plain integer for bytes. */
  function SizeString(f: Foreign, size: nat): (r: string)
    ensures UnitFor(size) == Bytes ==> r == Decimal(size) + "B"
  {
    match UnitFor(size)
    case Megabytes => f.fixed1(size, 1_000_000) + "MB"
    case Kilobytes => f.fixed1(size, 1_000) + "KB"
    case Bytes => Decimal(size) + "B"
  }

  /** The detected content type, by precedence. */
  function ContentType(text: string): string {
    var head := Take(text, 1000);
    if Contains(head, "JVBERi") then "PDF"
    else if Contains(head, "iVBORw") then "PNG"
    else if Contains(head, "/9j/") then "JPEG"
    else if Contains(head, "data:image/") || Contains(head, "\"type\": \"image\"") then "image"
    else if Contains(head, "data:application/pdf") then "PDF"
    else "binary"
  }

  /** `f"{tool_name}: "` when the tool name is truthy, else nothing. */
  function ToolPrefix(toolName: Option<string>): string {
    if toolName.Some? && toolName.value != "" then toolName.value + ": " else ""
  }

  /** `truncate_binary_content(text, tool_name)`. */
  function TruncateBinaryContent(f: Foreign, text: string, toolName: Option<string>): (r: string)
    ensures !IsBase64Content(text, DefaultMinLength) ==> r == text
  {
    if !IsBase64Content(text, DefaultMinLength) then text
    else "[" + ToolPrefix(toolName) + ContentType(text) + " " + SizeString(f, OriginalSize(|text|)) + "]"
  }

  /** Short texts are never flagged, so they pass through unchanged. */
  lemma ShortTextIsKept(f: Foreign, text: string, toolName: Option<string>)
    requires |text| < DefaultMinLength
    ensures !IsBase64Content(text, DefaultMinLength)
    ensures TruncateBinaryContent(f, text, toolName) == text
  {
  }

  /** A flagged text becomes a bracketed summary naming the tool, the type and the decoded size,
      and the size's unit is the last thing before the closing bracket. */
  lemma {:induction false} SummaryShape(f: Foreign, text: string, toolName: Option<string>)
    requires IsBase64Content(text, DefaultMinLength)
    ensures var r := TruncateBinaryContent(f, text, toolName);
      && StartsWith(r, "[" + ToolPrefix(toolName) + ContentType(text) + " ")
      && r[|r| - 1] == ']'
      && r[|r| - 2] == 'B'
      && (UnitFor(OriginalSize(|text|)) == Megabytes ==> r[|r| - 3] == 'M')
      && (UnitFor(OriginalSize(|text|)) == Kilobytes ==> r[|r| - 3] == 'K')
      && (UnitFor(OriginalSize(|text|)) == Bytes ==> IsDigit(r[|r| - 3]))
  ensures var r := TruncateBinaryContent(f, text, toolName);
    var head := "[" + ToolPrefix(toolName) + ContentType(text) + " ";
    var size := OriginalSize(|text|);
    && size == 3 * |text| / 4
    && (UnitFor(size) == Bytes ==> size <= 1_000 && r == head + Decimal(size) + "B]")
    && (UnitFor(size) == Kilobytes ==> 1_000 < size <= 1_000_000 && r == head + f.fixed1(size, 1_000) + "KB]")
    && (UnitFor(size) == Megabytes ==> 1_000_000 < size && r == head + f.fixed1(size, 1_000_000) + "MB]")
  {
    var head := "[" + ToolPrefix(toolName) + ContentType(text) + " ";
    var size := SizeString(f, OriginalSize(|text|));
    var r := TruncateBinaryContent(f, text, toolName);
    assert r == head + size + "]";
    assert r[..|head|] == head;
    if UnitFor(OriginalSize(|text|)) == Bytes {
      var d := Decimal(OriginalSize(|text|));
      assert r == head + d + "B]";
      assert r[|r| - 3] == d[|d| - 1];
    }
  }

  /** A text that starts with a data URI and is long enough is always summarised. */
  lemma DataUriIsSummarised(f: Foreign, text: string, toolName: Option<string>)
    requires |text| >= DefaultMinLength && StartsWith(text, "data:")
    ensures IsBase64Content(text, DefaultMinLength)
    ensures TruncateBinaryContent(f, text, toolName)[0] == '['
  {
  }

  /** The content type follows the signatures' precedence: PDF before PNG before JPEG. */
  lemma ContentTypePrecedence(text: string)
    ensures Contains(Take(text, 1000), "JVBERi") ==> ContentType(text) == "PDF"
    ensures !Contains(Take(text, 1000), "JVBERi") && Contains(Take(text, 1000), "iVBORw") ==> ContentType(text) == "PNG"
    ensures HasMagicSignature(text) ==> ContentType(text) in {"PDF", "PNG", "JPEG"}
  {
  }

  /** `truncate_by_tool_type(text, tool_name)`. */
  function TruncateByToolType(f: Foreign, text: string, toolName: Option<string>): (r: string)
    ensures |text| <= TruncateThreshold ==> r == text
    ensures toolName.Some? && toolName.value in FullOutputTools ==> r == text
    ensures r != text ==> r == text[..TruncateThreshold] + "...\n[...truncated, " + f.fixed1(|text|, 1000) + "KB total]"
  {
    if text == "" || |text| <= TruncateThreshold then text
    else if toolName.Some? && toolName.value != "" && toolName.value in FullOutputTools then text
    else text[..TruncateThreshold] + "...\n[...truncated, " + f.fixed1(|text|, 1000) + "KB total]"
  }

  /** Whatever the tool, the first 1000 characters of the output are kept verbatim. */
  lemma {:induction false} TruncationKeepsHead(f: Foreign, text: string, toolName: Option<string>)
    ensures StartsWith(TruncateByToolType(f, text, toolName), Take(text, TruncateThreshold))
  {
    var r := TruncateByToolType(f, text, toolName);
    var head := Take(text, TruncateThreshold);
    if r != text {
      assert r[..|head|] == head;
    }
  }

  /** A long output of a tool outside the full-output list is always cut, and the marker
      ends the result. */
  lemma {:induction false} LongOutputIsCut(f: Foreign, text: string, toolName: Option<string>)
    requires |text| > TruncateThreshold
    requires toolName.None? || toolName.value !in FullOutputTools
    ensures var r := TruncateByToolType(f, text, toolName);
      && r[..TruncateThreshold] == text[..TruncateThreshold]
      && r[TruncateThreshold..TruncateThreshold + 19] == "...\n[...truncated, "
      && r[|r| - 9..] == "KB total]"
  {
    var r := TruncateByToolType(f, text, toolName);
    var a := text[..TruncateThreshold];
    var b := "...\n[...truncated, ";
    var c := f.fixed1(|text|, 1000);
    assert r == a + b + c + "KB total]";
    assert r[..TruncateThreshold] == a;
    assert r[TruncateThreshold..TruncateThreshold + 19] == b;
  }
}
