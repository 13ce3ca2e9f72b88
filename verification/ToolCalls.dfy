/**
 The tool-call translator: assistant messages with tool calls become text with <tool_call> blocks,
 and such text is parsed back into calls.
 */
module ToolCalls {
  import opened Wrappers
  import opened Text
  import opened Json
  import opened BraceScan

  const THINK_OPEN := "<think>"
  const THINK_CLOSE := "</think>"
  const CALL_OPEN := "<tool_call>"
  const CALL_CLOSE := "</tool_call>"

  lemma TagsAreTags()
    ensures TagPair(THINK_OPEN, THINK_CLOSE) && TagPair(CALL_OPEN, CALL_CLOSE)
  {
  }

  /** An entry of `tool_calls`: one without a function object is malformed. */
  datatype ToolCall = Malformed | Call(name: string, arguments: string)

  /** A call recovered from text; its random id is not modelled. */
  datatype Recovered = Recovered(name: string, arguments: string)

  // ---- reading one call object --------------------------------------------------------------

  /** What the decoder has filled in; `mistyped` if a name was neither a string nor null. */
  datatype Fields = Fields(name: string, arguments: string, mistyped: bool)

  /** Go's case folding, as far as the letters of "name" and "arguments" go: a long s is an s. */
  function FoldChar(c: char): char {
    if 'A' <= c <= 'Z' then (c as int + 32) as char else if c == '\U{17F}' then 's' else c
  }

  function Fold(s: string): string { if s == "" then "" else [FoldChar(s[0])] + Fold(s[1..]) }

  function SetField(f: Fields, key: string, value: Json, text: string): Fields {
    if Fold(key) == "name" then
      match value
      case String(s) => f.(name := s)
      case Null => f
      case _ => f.(mistyped := true)
    else if Fold(key) == "arguments" then f.(arguments := text)
    else f
  }

  /** The members of the object up to its closing brace; a later member overrides an earlier one. */
  function ReadFields(s: string, f: Fields): (r: Read<Fields>)
    ensures r.Got? ==> |r.rest| < |s|
    decreases |s|
  {
    var (key, t) :- ReadKey(s);
    var (value, u) :- ReadValue(t);
    var g := SetField(f, key, value, t[..|t| - |u|]);
    var v := SkipWs(u);
    if v == "" then Bad
    else if v[0] == '}' then Got(g, v[1..])
    else if v[0] == ',' then ReadFields(v[1..], g)
    else Bad
  }

  const NO_FIELDS := Fields("", "", false)

  /** Decoding a text into the pair of name and raw arguments. */
  function ReadCall(raw: string): Option<Fields> {
    var t := SkipWs(raw);
    if t == "" || t[0] != '{' then None
    else
      var u := SkipWs(t[1..]);
      var r := if u != "" && u[0] == '}' then Got(NO_FIELDS, u[1..]) else ReadFields(u, NO_FIELDS);
      if r.Got? && SkipWs(r.rest) == "" && !r.value.mistyped then Some(r.value) else None
  }

  function Defaulted(arguments: string): string {
    var args := TrimSpace(arguments);
    if args == "" || args == "null" then "{}" else args
  }

  /** The call inside one span, if any: it starts before the closing tag but may run past it. */
  function BlockCalls(body: string, close: nat): seq<Recovered>
    requires close <= |body|
  {
    var b := Index(body[..close], "{");
    if b < 0 then []
    else
      match Extract(body[b..])
      case NotFound => []
      case Found(raw) =>
        match ReadCall(raw)
        case None => []
        case Some(f) => if f.name == "" then [] else [Recovered(f.name, Defaulted(f.arguments))]
  }

  /** All calls of a text whose think blocks are gone. */
  function Calls(s: string): seq<Recovered>
    decreases |s|
  {
    match NextCut(s, CALL_OPEN, CALL_CLOSE)
    case Clear => []
    case Unclosed(_) => []
    case Span(_, inside, after) => BlockCalls(inside + (CALL_CLOSE + after), |inside|) + Calls(after)
  }

  function ParseCalls(text: string): seq<Recovered> { Calls(Strip(text, THINK_OPEN, THINK_CLOSE)) }

  // ---- the loops ------------------------------------------------------------------------------

  /** Both strippers' loop: copy up to the opening tag, then jump behind the closing one. */
  method StripSpans(text: string, open: string, close: string) returns (shown: string, ghost spans: seq<(nat, nat)>)
    requires TagPair(open, close)
    ensures shown == Strip(text, open, close)
    ensures spans == Spans(text, 0, open, close)
  {
    hide Index, HasAt, Strip, Spans;
    shown, spans := "", [];
    var cursor := 0;
    assert text[0..] == text && "" + Strip(text, open, close) == Strip(text, open, close);
    assert [] + Spans(text, 0, open, close) == Spans(text, 0, open, close);
    while true
      invariant cursor <= |text|
      invariant Strip(text, open, close) == shown + Strip(text[cursor..], open, close)
      invariant Spans(text, 0, open, close) == spans + Spans(text[cursor..], cursor, open, close)
      decreases |text| - cursor
    {
      var rest := text[cursor..];
      var at := Index(rest, open);
      if at < 0 {
        NoMoreSpans(rest, cursor, open, close);
        shown := shown + rest;
        break;
      }
      assert at + |open| <= |rest| by { OpenFits(rest, open); }
      shown := shown + text[cursor..cursor + at];
      var closeRel := Index(text[cursor + at..], close);
      assert text[cursor..cursor + at] == rest[..at];
      assert text[cursor + at..] == rest[at..];
      NextSpan(rest, cursor, open, close);
      if closeRel < 0 {
        break;
      }
      assert text[cursor + at + closeRel + |close|..] == rest[at + closeRel + |close|..];
      spans := spans + [(cursor + at, cursor + at + closeRel + |close|)];
      cursor := cursor + at + closeRel + |close|;
    }
  }

  lemma OpenFits(rest: string, open: string)
    requires Index(rest, open) >= 0
    ensures Index(rest, open) + |open| <= |rest|
  {
  }

  lemma NoMoreSpans(rest: string, base: nat, open: string, close: string)
    requires |open| > 0 && Index(rest, open) < 0
    ensures Strip(rest, open, close) == rest && Spans(rest, base, open, close) == []
  {
  }

  /** One round of the loop, in the words of the recursive specification. */
  lemma NextSpan(rest: string, base: nat, open: string, close: string)
    requires TagPair(open, close) && Index(rest, open) >= 0
    ensures var at := Index(rest, open);
            var closeRel := Index(rest[at..], close);
            && (closeRel < 0 ==> Strip(rest, open, close) == rest[..at] && Spans(rest, base, open, close) == [])
            && (closeRel >= 0 ==>
                  && closeRel >= |open| && at + closeRel + |close| <= |rest|
                  && var next := at + closeRel + |close|;
                     && Strip(rest, open, close) == rest[..at] + Strip(rest[next..], open, close)
                     && Spans(rest, base, open, close) == [(base + at, base + next)]
                         + Spans(rest[next..], base + next, open, close))
  {
    hide Index, NextCut;
    CutAt(rest, open, close);
  }

  lemma CutAt(rest: string, open: string, close: string)
    requires TagPair(open, close) && Index(rest, open) >= 0
    ensures var at := Index(rest, open);
            var closeRel := Index(rest[at..], close);
            if closeRel < 0 then NextCut(rest, open, close) == Unclosed(rest[..at])
            else
              && closeRel >= |open| && at + closeRel + |close| <= |rest|
              && NextCut(rest, open, close) == Span(rest[..at], rest[at + |open|..at + closeRel],
                  rest[at + closeRel + |close|..])
  {
    hide Index, HasAt;
    var at := Index(rest, open);
    OpenFits(rest, open);
    OpenThere(rest, open);
    var body := rest[at + |open|..];
    assert rest[at..] == open + body;
    CloseSearchAgrees(open, close, body);
    var e := Index(body, close);
    if e >= 0 {
      OpenFits(body, close);
      assert rest[at + |open| + e + |close|..] == body[e + |close|..];
      assert rest[at + |open|..at + |open| + e] == body[..e];
    }
  }

  lemma OpenThere(s: string, pat: string)
    requires Index(s, pat) >= 0
    ensures var e := Index(s, pat); e + |pat| <= |s| && s[e..e + |pat|] == pat
  {
  }

  method StripThinkBlocks(text: string) returns (shown: string)
    ensures shown == Strip(text, THINK_OPEN, THINK_CLOSE)
  {
    ghost var spans;
    shown, spans := StripSpans(text, THINK_OPEN, THINK_CLOSE);
  }

  /** The visible text, trimmed, and the spans it leaves out of the text without think blocks. */
  method StripThinkAndToolCalls(text: string) returns (shown: string, ghost spans: seq<(nat, nat)>)
    ensures shown == TrimSpace(Strip(Strip(text, THINK_OPEN, THINK_CLOSE), CALL_OPEN, CALL_CLOSE))
    ensures Trimmed(shown)
    ensures exists a, b :: AllSpace(a) && AllSpace(b)
                           && Strip(Strip(text, "<think>", "</think>"), "<tool_call>", "</tool_call>") == a + shown + b
    ensures spans == Spans(Strip(text, THINK_OPEN, THINK_CLOSE), 0, CALL_OPEN, CALL_CLOSE)
  {
    hide Strip, Spans, TrimSpace;
    var cleaned := StripThinkBlocks(text);
    shown, spans := StripSpans(cleaned, CALL_OPEN, CALL_CLOSE);
    ghost var a, b := TrimCuts(shown);
    shown := TrimSpace(shown);
  }

  lemma NoMoreCalls(rest: string, base: nat)
    requires Index(rest, CALL_OPEN) < 0 || Index(rest[Index(rest, CALL_OPEN) + |CALL_OPEN|..], CALL_CLOSE) < 0
    ensures Calls(rest) == [] && Spans(rest, base, CALL_OPEN, CALL_CLOSE) == []
  {
  }

  lemma NextBlock(rest: string, base: nat)
    requires Index(rest, CALL_OPEN) >= 0 && Index(rest[Index(rest, CALL_OPEN) + |CALL_OPEN|..], CALL_CLOSE) >= 0
    ensures var start := Index(rest, CALL_OPEN) + |CALL_OPEN|;
            var end := start + Index(rest[start..], CALL_CLOSE);
            var next := end + |CALL_CLOSE|;
            && start <= end && next <= |rest|
            && Calls(rest) == BlockCalls(rest[start..], end - start) + Calls(rest[next..])
            && Spans(rest, base, CALL_OPEN, CALL_CLOSE)
               == [(base + Index(rest, CALL_OPEN), base + next)]
                   + Spans(rest[next..], base + next, CALL_OPEN, CALL_CLOSE)
  {
    hide Index, HasAt, BlockCalls, NextCut;
    OpenFits(rest, CALL_OPEN);
    var start := Index(rest, CALL_OPEN) + |CALL_OPEN|;
    var body := rest[start..];
    var e := Index(body, CALL_CLOSE);
    OpenThere(body, CALL_CLOSE);
    BodyParts(body, e);
    CutInBody(rest);
    assert body[e + |CALL_CLOSE|..] == rest[start + e + |CALL_CLOSE|..];
  }

  lemma CutInBody(rest: string)
    requires Index(rest, CALL_OPEN) >= 0
    ensures var at := Index(rest, CALL_OPEN);
            at + |CALL_OPEN| <= |rest|
            && var body := rest[at + |CALL_OPEN|..];
               var e := Index(body, CALL_CLOSE);
               e >= 0 ==>
                 && e + |CALL_CLOSE| <= |body|
                 && NextCut(rest, CALL_OPEN, CALL_CLOSE) == Span(rest[..at], body[..e], body[e + |CALL_CLOSE|..])
  {
    hide Index;
  }

  lemma BodyParts(body: string, e: nat)
    requires e + |CALL_CLOSE| <= |body| && body[e..e + |CALL_CLOSE|] == CALL_CLOSE
    ensures body == body[..e] + (CALL_CLOSE + body[e + |CALL_CLOSE|..])
  {
  }

  /** The calls of a text, in order; the spans visited are those the stripper removes. */
  method ParseToolCallsFromText(text: string) returns (calls: seq<Recovered>, ghost spans: seq<(nat, nat)>)
    ensures calls == ParseCalls(text)
    ensures spans == Spans(Strip(text, THINK_OPEN, THINK_CLOSE), 0, CALL_OPEN, CALL_CLOSE)
  {
    hide Index, HasAt, Strip, Spans, Calls, Extract, ReadCall, TrimSpace;
    var cleaned := StripThinkBlocks(text);
    calls, spans := [], [];
    var searchFrom := 0;
    assert cleaned[0..] == cleaned && [] + Calls(cleaned) == Calls(cleaned);
    assert [] + Spans(cleaned, 0, CALL_OPEN, CALL_CLOSE) == Spans(cleaned, 0, CALL_OPEN, CALL_CLOSE);
    while true
      invariant searchFrom <= |cleaned|
      invariant Calls(cleaned) == calls + Calls(cleaned[searchFrom..])
      invariant Spans(cleaned, 0, CALL_OPEN, CALL_CLOSE)
                == spans + Spans(cleaned[searchFrom..], searchFrom, CALL_OPEN, CALL_CLOSE)
      decreases |cleaned| - searchFrom
    {
      var rest := cleaned[searchFrom..];
      var at := Index(rest, CALL_OPEN);
      if at < 0 {
        NoMoreCalls(rest, searchFrom);
        break;
      }
      assert at + |CALL_OPEN| <= |rest| by { OpenFits(rest, CALL_OPEN); }
      var contentStart := searchFrom + at + |CALL_OPEN|;
      assert cleaned[contentStart..] == rest[at + |CALL_OPEN|..];
      var closeRel := Index(cleaned[contentStart..], CALL_CLOSE);
      if closeRel < 0 {
        NoMoreCalls(rest, searchFrom);
        break;
      }
      NextBlock(rest, searchFrom);
      var closeIdx := contentStart + closeRel;
      var found := BlockAt(cleaned, contentStart, closeIdx);
      var next := closeIdx + |CALL_CLOSE|;
      assert cleaned[next..] == rest[at + |CALL_OPEN| + closeRel + |CALL_CLOSE|..];
      calls := calls + found;
      spans := spans + [(searchFrom + at, next)];
      searchFrom := next;
    }
  }

  /** The body of the loop between finding the closing tag and moving on. */
  method BlockAt(cleaned: string, contentStart: nat, closeIdx: nat) returns (found: seq<Recovered>)
    requires contentStart <= closeIdx <= |cleaned|
    ensures found == BlockCalls(cleaned[contentStart..], closeIdx - contentStart)
  {
    hide Index, HasAt, Extract, ReadCall, TrimSpace;
    ghost var body, close := cleaned[contentStart..], closeIdx - contentStart;
    assert body[..close] == cleaned[contentStart..closeIdx];
    var braceRel := Index(cleaned[contentStart..closeIdx], "{");
    if braceRel < 0 {
      return [];
    }
    OpenFits(body[..close], "{");
    assert body[braceRel..] == cleaned[contentStart + braceRel..];
    var raw := ExtractJSONObject(cleaned, contentStart + braceRel);
    if raw.NotFound? {
      return [];
    }
    var parsed := ReadCall(raw.text);
    if parsed.None? || parsed.value.name == "" {
      return [];
    }
    var args := TrimSpace(parsed.value.arguments);
    if args == "" || args == "null" {
      args := "{}";
    }
    return [Recovered(parsed.value.name, args)];
  }

  // ---- printing -------------------------------------------------------------------------------

  /** Any reader of argument texts whose values can be printed. */
  ghost predicate ReadsJson(readArgs: string -> Option<Json>) {
    forall s :: readArgs(s).Some? ==> WellFormed(readArgs(s).value)
  }

  /** Arguments that are not JSON are kept as a string. */
  function Arguments(arguments: string, readArgs: string -> Option<Json>): Json {
    match readArgs(arguments) case Some(j) => j case None => String(arguments)
  }

  function CallMembers(name: string, args: Json): Members {
    Member("arguments", args, Member("name", String(name), NoMembers))
  }

  function Block(call: ToolCall, readArgs: string -> Option<Json>): string
    requires call.Call?
  {
    CALL_OPEN + ("\n" + (Print(Object(CallMembers(call.name, Arguments(call.arguments, readArgs))))
        + ("\n" + CALL_CLOSE)))
  }

  /** The blocks of the well-formed calls, a newline before each unless nothing was written yet. */
  function Blocks(started: bool, calls: seq<ToolCall>, readArgs: string -> Option<Json>): string
    decreases |calls|
  {
    if calls == [] then ""
    else if calls[0].Malformed? then Blocks(started, calls[1..], readArgs)
    else (if started then "\n" else "") + (Block(calls[0], readArgs) + Blocks(true, calls[1..], readArgs))
  }

  function AssistantText(existing: string, calls: seq<ToolCall>, readArgs: string -> Option<Json>): string {
    existing + Blocks(existing != "", calls, readArgs)
  }

  class Message {
    var role: string
    var content: string
    var toolCalls: seq<ToolCall>

    constructor (role: string, content: string, toolCalls: seq<ToolCall>)
      ensures this.role == role && this.content == content && this.toolCalls == toolCalls
    {
      this.role, this.content, this.toolCalls := role, content, toolCalls;
    }

    /** Moves the tool calls into the text; a message without any is left alone. */
    method RewriteAssistantToolCalls(readArgs: string -> Option<Json>) returns (rewritten: bool)
      modifies this
      ensures rewritten == (old(toolCalls) != []) && toolCalls == [] && role == old(role)
      ensures content == if rewritten then AssistantText(old(content), old(toolCalls), readArgs) else old(content)
    {
      if toolCalls == [] {
        return false;
      }
      hide Block;
      var calls, sb, i := toolCalls, content, 0;
      assert calls[0..] == calls;
      while i < |calls|
        invariant i <= |calls| && content == old(content) && role == old(role)
        invariant AssistantText(content, calls, readArgs) == sb + Blocks(sb != "", calls[i..], readArgs)
      {
        var call := calls[i];
        assert calls[i..][1..] == calls[i + 1..] && calls[i..][0] == call;
        if call.Call? {
          BlocksStep(sb, calls[i..], readArgs);
          if |sb| > 0 {
            sb := sb + "\n";
          }
          sb := sb + Block(call, readArgs);
        }
        i := i + 1;
      }
      assert calls[i..] == [] && sb + "" == sb;
      content, toolCalls := sb, [];
      return true;
    }
  }

  lemma BlocksStep(sb: string, calls: seq<ToolCall>, readArgs: string -> Option<Json>)
    requires calls != [] && calls[0].Call?
    ensures var next := (if sb != "" then sb + "\n" else sb) + Block(calls[0], readArgs);
            next != "" && sb + Blocks(sb != "", calls, readArgs) == next + Blocks(true, calls[1..], readArgs)
  {
    var block, more := Block(calls[0], readArgs), Blocks(true, calls[1..], readArgs);
    if sb == "" {
      assert sb + ("" + (block + more)) == sb + block + more;
    } else {
      assert sb + ("\n" + (block + more)) == sb + "\n" + block + more;
    }
  }
}
