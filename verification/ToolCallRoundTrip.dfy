/** Calls printed into an assistant's text are parsed back out of it: none lost, merged or invented. */
module ToolCallRoundTrip {
  import opened Wrappers
  import opened Text
  import opened Json
  import opened BraceScan
  import opened ToolCalls

  /** What each printed call must come back as; the parser drops calls without a name. */
  function Expected(calls: seq<ToolCall>, readArgs: string -> Option<Json>): seq<Recovered>
    decreases |calls|
  {
    if calls == [] then []
    else
      (if calls[0].Call? && calls[0].name != "" then [Back(calls[0], readArgs)] else [])
          + Expected(calls[1..], readArgs)
  }

  /** The name itself and the arguments as printed, null becoming the empty object. */
  function Back(call: ToolCall, readArgs: string -> Option<Json>): Recovered
    requires call.Call?
  {
    Recovered(call.name,
              match readArgs(call.arguments)
              case Some(Null) => "{}"
              case Some(args) => Print(args)
              case None => Quote(call.arguments))
  }

  /** Arguments that are JSON are printed as that JSON, others as a string. */
  lemma BackIs(call: ToolCall, readArgs: string -> Option<Json>)
    requires call.Call?
    ensures var args := Arguments(call.arguments, readArgs);
            Back(call, readArgs) == Recovered(call.name, if args.Null? then "{}" else Print(args))
  {
  }

  // ---- one call object --------------------------------------------------------------------------

  lemma {:induction false} FoldKeepsLowerCase(s: string)
    requires forall c :: c in s ==> 'a' <= c <= 'z'
    ensures Fold(s) == s
    decreases |s|
  {
    if s != "" {
      assert s[0] in s && forall c :: c in s[1..] ==> c in s;
      FoldKeepsLowerCase(s[1..]);
    }
  }

  /** A member followed by a comma or by the closing brace, whichever reader is at work. */
  lemma FieldRead(key: string, value: Json, tail: string, f: Fields)
    requires WellFormed(value) && tail != "" && tail[0] in ",}"
    ensures var s := Quote(key) + (":" + (Print(value) + tail));
            var g := SetField(f, key, value, Print(value));
            ReadFields(s, f) == if tail[0] == '}' then Got(g, tail[1..]) else ReadFields(tail[1..], g)
  {
    hide SetField, Print, Quote, ReadKey, ReadValue;
    var t := Print(value) + tail;
    PrintStarts(value);
    KeyRoundTrip(key, t);
    ValueRoundTrip(value, tail);
    assert t[..|t| - |tail|] == Print(value);
  }

  lemma PrintedCallText(name: string, args: Json)
    ensures Print(Object(CallMembers(name, args)))
         == "{" + (Quote("arguments") + (":" + (Print(args)
             + ("," + (Quote("name") + (":" + (Print(String(name)) + "}")))))))
  {
    hide Escape;
    var nameText := Quote("name") + (":" + Print(String(name)));
    assert PrintMembers(Member("name", String(name), NoMembers)) == nameText;
    assert (Quote("arguments") + (":" + Print(args)) + ("," + nameText)) + "}"
        == Quote("arguments") + (":" + (Print(args) + ("," + (nameText + "}"))));
    assert nameText + "}" == Quote("name") + (":" + (Print(String(name)) + "}"));
  }

  /** A printed call decodes to its name and the printed text of its arguments. */
  lemma CallObjectRoundTrip(name: string, args: Json)
    requires WellFormed(args)
    ensures ReadCall(Print(Object(CallMembers(name, args)))) == Some(Fields(name, Print(args), false))
  {
    hide Print, Quote, ReadFields, Escape, Fold;
    var last := Quote("name") + (":" + (Print(String(name)) + "}"));
    var members := Quote("arguments") + (":" + (Print(args) + ("," + last)));
    PrintedCallText(name, args);
    QuoteStarts("arguments");
    FoldKeepsLowerCase("arguments");
    FoldKeepsLowerCase("name");
    FieldRead("arguments", args, "," + last, NO_FIELDS);
    FieldRead("name", String(name), "}", Fields("", Print(args), false));
    assert ("," + last)[1..] == last && "}"[1..] == "";
    assert ("{" + members)[1..] == members;
    assert SkipWs("") == "";
  }

  lemma QuoteStarts(s: string)
    ensures Quote(s) != "" && Quote(s)[0] == '"'
  {
  }

  lemma NumberEdges(text: string)
    requires text != "" && forall c :: c in text ==> IsNumberChar(c)
    ensures !IsSpace(text[0]) && !IsSpace(text[|text| - 1])
  {
    assert text[0] in text && text[|text| - 1] in text;
  }

  /** Printed JSON has no white space at its edges. */
  lemma PrintIsTrimmed(j: Json)
    requires WellFormed(j)
    ensures TrimSpace(Print(j)) == Print(j) && Print(j) != ""
    ensures Print(j) == "null" <==> j.Null?
  {
    hide PrintItems, PrintMembers, Escape, ValidNumber, IsSpace;
    PrintStarts(j);
    if j.Number? {
      NumberEdges(j.text);
      assert j.text[0] in j.text;
    } else {
      EdgeCharacters();
    }
  }

  lemma EdgeCharacters()
    ensures forall c :: c in "nltfe\"[]{}" ==> !IsSpace(c)
  {
  }

  lemma DefaultedPrint(j: Json)
    requires WellFormed(j)
    ensures Defaulted(Print(j)) == if j.Null? then "{}" else Print(j)
  {
    hide Print, TrimSpace;
    PrintIsTrimmed(j);
  }

  // ---- one block --------------------------------------------------------------------------------

  lemma BraceFirst(json: string)
    requires json != "" && json[0] == '{'
    ensures Index("\n" + (json + "\n"), "{") == 1
  {
    var s := "\n" + (json + "\n");
    assert s[1..2] == "{";
    IndexIsUnique(s, "{", 1);
  }

  lemma CallIsWellFormed(name: string, args: Json)
    requires WellFormed(args)
    ensures WellFormedMembers(CallMembers(name, args))
  {
    assert WellFormedMembers(Member("name", String(name), NoMembers));
  }

  /** Between the tags the scanner cuts out the printed object. */
  lemma BlockIsExtracted(ms: Members, after: string)
    requires WellFormedMembers(ms)
    ensures var json := Print(Object(ms));
            var inside := "\n" + (json + "\n");
            var body := inside + (CALL_CLOSE + after);
            Index(body[..|inside|], "{") == 1 && Extract(body[1..]) == Found(json)
  {
    hide Index, Extract, PrintMembers;
    var json := Print(Object(ms));
    var inside, rest := "\n" + (json + "\n"), "\n" + (CALL_CLOSE + after);
    var body := inside + (CALL_CLOSE + after);
    BraceFirst(json);
    assert body[..|inside|] == inside;
    assert body[1..] == json + rest;
    PrintedObjectIsExtracted(ms, rest);
  }

  /** The span around one printed call yields that call. */
  lemma BlockRoundTrip(name: string, args: Json, after: string)
    requires WellFormed(args)
    ensures var inside := "\n" + (Print(Object(CallMembers(name, args))) + "\n");
            BlockCalls(inside + (CALL_CLOSE + after), |inside|)
            == if name == "" then [] else [Recovered(name, if args.Null? then "{}" else Print(args))]
  {
    hide Print, Index, Extract, ReadCall, Defaulted;
    CallIsWellFormed(name, args);
    BlockIsExtracted(CallMembers(name, args), after);
    CallObjectRoundTrip(name, args);
    DefaultedPrint(args);
  }

  lemma InsideHasNoBracket(name: string, args: Json)
    requires WellFormed(args)
    ensures '<' !in "\n" + (Print(Object(CallMembers(name, args))) + "\n")
  {
    hide Print;
    CallIsWellFormed(name, args);
    PrintHasNoBracket(Object(CallMembers(name, args)));
  }

  // ---- the whole text -----------------------------------------------------------------------------

  lemma BlockParts(call: ToolCall, readArgs: string -> Option<Json>, after: string)
    requires call.Call? && ReadsJson(readArgs)
    ensures var args := Arguments(call.arguments, readArgs);
            var inside := "\n" + (Print(Object(CallMembers(call.name, args))) + "\n");
            && WellFormed(args)
            && '<' !in inside
            && Block(call, readArgs) + after == CALL_OPEN + (inside + (CALL_CLOSE + after))
  {
    hide Print;
    var args := Arguments(call.arguments, readArgs);
    assert WellFormed(args);
    InsideHasNoBracket(call.name, args);
    var json := Print(Object(CallMembers(call.name, args)));
    assert CALL_OPEN + ("\n" + (json + ("\n" + CALL_CLOSE))) + after
        == CALL_OPEN + (("\n" + (json + "\n")) + (CALL_CLOSE + after));
  }

  function Separator(started: bool): string { if started then "\n" else "" }

  /** The first printed call is the first span, whatever free text stands before it. */
  lemma FirstBlockIsCut(before: string, started: bool, calls: seq<ToolCall>, readArgs: string -> Option<Json>)
    requires ReadsJson(readArgs) && Free(before, CALL_OPEN) && calls != [] && calls[0].Call?
    ensures var args := Arguments(calls[0].arguments, readArgs);
            && WellFormed(args)
            && NextCut(before + Blocks(started, calls, readArgs), CALL_OPEN, CALL_CLOSE)
               == Span(before + Separator(started),
                       "\n" + (Print(Object(CallMembers(calls[0].name, args))) + "\n"),
                       Blocks(true, calls[1..], readArgs))
  {
    hide Block, NextCut, Free, Print, Arguments, ReadsJson;
    var call, after, sep := calls[0], Blocks(true, calls[1..], readArgs), Separator(started);
    var inside := "\n" + (Print(Object(CallMembers(call.name, Arguments(call.arguments, readArgs)))) + "\n");
    BlockParts(call, readArgs, after);
    SeparatorIsFree(before, sep);
    TagsAreTags();
    FreeWithoutFirst(inside, CALL_CLOSE);
    Joined(before, sep, Block(call, readArgs), after, CALL_OPEN + (inside + (CALL_CLOSE + after)));
    CutOfSpan(before + sep, CALL_OPEN, inside, CALL_CLOSE, after);
  }

  lemma Joined(before: string, sep: string, block: string, after: string, parts: string)
    requires block + after == parts
    ensures before + (sep + (block + after)) == (before + sep) + parts
  {
  }

  lemma {:induction false} CallsOfBlocks(before: string, started: bool, calls: seq<ToolCall>,
      readArgs: string -> Option<Json>)
    requires ReadsJson(readArgs) && Free(before, CALL_OPEN)
    ensures Calls(before + Blocks(started, calls, readArgs)) == Expected(calls, readArgs)
    decreases |calls|
  {
    hide Block, BlockCalls, NextCut, Free, Print, Arguments, ReadsJson;
    if calls == [] {
      assert before + "" == before;
      NoCut(before);
    } else if calls[0].Malformed? {
      CallsOfBlocks(before, started, calls[1..], readArgs);
      assert [] + Expected(calls[1..], readArgs) == Expected(calls[1..], readArgs);
    } else {
      var call, after := calls[0], Blocks(true, calls[1..], readArgs);
      FirstBlockIsCut(before, started, calls, readArgs);
      BlockRoundTrip(call.name, Arguments(call.arguments, readArgs), after);
      BackIs(call, readArgs);
      FreeWithoutFirst("", CALL_OPEN);
      CallsOfBlocks("", true, calls[1..], readArgs);
      assert "" + after == after;
    }
  }

  lemma NoCut(s: string)
    requires Free(s, CALL_OPEN)
    ensures Calls(s) == []
  {
    FreeIsNotFound(s, CALL_OPEN);
  }

  lemma SeparatorIsFree(before: string, sep: string)
    requires sep == "" || sep == "\n"
    ensures Free(before, CALL_OPEN) ==> Free(before + sep, CALL_OPEN)
    ensures Free(before, THINK_OPEN) ==> Free(before + sep, THINK_OPEN)
  {
    FreeWithoutFirst(sep, CALL_OPEN);
    FreeWithoutFirst(sep, THINK_OPEN);
    if Free(before, CALL_OPEN) {
      FreeConcat(before, sep, CALL_OPEN);
    }
    if Free(before, THINK_OPEN) {
      FreeConcat(before, sep, THINK_OPEN);
    }
  }

  // ---- printed blocks contain no <think> ------------------------------------------------------------

  lemma TagHasNoThink(tag: string)
    requires tag in [CALL_OPEN, CALL_CLOSE]
    ensures Free(tag, THINK_OPEN)
  {
    forall k
      ensures !HasAt(tag, k, THINK_OPEN)
    {
      assert tag[0..7][2] != THINK_OPEN[2];
      assert 0 < k < |tag| ==> tag[k] == tag[1..][k - 1] != '<';
      if HasAt(tag, k, THINK_OPEN) {
        HeadAt(tag, k, THINK_OPEN);
      }
    }
  }

  lemma {:induction false} BlocksHaveNoThink(before: string, started: bool, calls: seq<ToolCall>,
      readArgs: string -> Option<Json>)
    requires ReadsJson(readArgs) && Free(before, THINK_OPEN)
    ensures Free(before + Blocks(started, calls, readArgs), THINK_OPEN)
    decreases |calls|
  {
    hide Block, Free, Print, Arguments, ReadsJson;
    if calls == [] {
      assert before + "" == before;
    } else if calls[0].Malformed? {
      BlocksHaveNoThink(before, started, calls[1..], readArgs);
    } else {
      var call, after := calls[0], Blocks(true, calls[1..], readArgs);
      var sep := Separator(started);
      var inside := "\n" + (Print(Object(CallMembers(call.name, Arguments(call.arguments, readArgs)))) + "\n");
      BlockParts(call, readArgs, after);
      SeparatorIsFree(before, sep);
      var done := ((before + sep + CALL_OPEN) + inside) + CALL_CLOSE;
      BlockHasNoThink(before + sep, inside);
      BlocksHaveNoThink(done, true, calls[1..], readArgs);
      RegroupBlock(before, sep, inside, after);
    }
  }

  lemma RegroupBlock(before: string, sep: string, inside: string, after: string)
    ensures before + (sep + (CALL_OPEN + (inside + (CALL_CLOSE + after))))
            == (((before + sep + CALL_OPEN) + inside) + CALL_CLOSE) + after
  {
  }

  lemma BlockHasNoThink(before: string, inside: string)
    requires Free(before, THINK_OPEN) && '<' !in inside && inside != "" && inside[0] == '\n'
    ensures Free(((before + CALL_OPEN) + inside) + CALL_CLOSE, THINK_OPEN)
  {
    hide Free;
    TagHasNoThink(CALL_OPEN);
    TagHasNoThink(CALL_CLOSE);
    FreeWithoutFirst(inside, THINK_OPEN);
    FreeConcat(before, CALL_OPEN, THINK_OPEN);
    FreeConcat(before + CALL_OPEN, inside, THINK_OPEN);
    FreeConcat(before + CALL_OPEN + inside, CALL_CLOSE, THINK_OPEN);
  }

  /**
   For every list of calls and every text free of the two opening tags, parsing the printed
   assistant text yields exactly the printed calls, in order.
   */
  lemma PrintedCallsAreParsed(existing: string, calls: seq<ToolCall>, readArgs: string -> Option<Json>)
    requires ReadsJson(readArgs)
    requires Free(existing, THINK_OPEN) && Free(existing, CALL_OPEN)
    ensures ParseCalls(AssistantText(existing, calls, readArgs)) == Expected(calls, readArgs)
  {
    hide Calls, Free, Blocks, ReadsJson, Expected;
    var text := AssistantText(existing, calls, readArgs);
    BlocksHaveNoThink(existing, existing != "", calls, readArgs);
    NothingToStrip(text);
    CallsOfBlocks(existing, existing != "", calls, readArgs);
  }

  lemma NothingToStrip(text: string)
    requires Free(text, THINK_OPEN)
    ensures Strip(text, THINK_OPEN, THINK_CLOSE) == text
  {
    FreeIsNotFound(text, THINK_OPEN);
  }

  /** The project's own reader of a whole text. */
  function ReadText(s: string): Option<Json> {
    var r := ReadValue(s);
    if r.Got? && SkipWs(r.rest) == "" then Some(r.value) else None
  }

  /** It is one of the readers the theorem speaks of; and what it reads prints to a text it reads alike. */
  lemma ReadTextReadsJson()
    ensures ReadsJson(ReadText)
    ensures forall s :: ReadText(s).Some? ==> ReadText(Print(ReadText(s).value)) == ReadText(s)
  {
    hide ReadValue, Print, WellFormed;
    forall s | ReadText(s).Some?
      ensures WellFormed(ReadText(s).value) && ReadText(Print(ReadText(s).value)) == ReadText(s)
    {
      ReadIsWellFormed(s);
      var j := ReadText(s).value;
      ValueRoundTrip(j, "");
      assert Print(j) + "" == Print(j);
    }
  }

  // ---- the text as it is printed --------------------------------------------------------------------------

  /** How a call stands in the text, on lines of its own. */
  function Written(call: ToolCall, readArgs: string -> Option<Json>): string
    requires call.Call?
  {
    var args := match readArgs(call.arguments) case Some(j) => Print(j) case None => Quote(call.arguments);
    "<tool_call>\n" + ("{\"arguments\":" + (args + (",\"name\":" + (Quote(call.name) + "}")))) + "\n</tool_call>"
  }

  lemma BlockIsWritten(call: ToolCall, readArgs: string -> Option<Json>)
    requires call.Call?
    ensures Block(call, readArgs) == Written(call, readArgs)
  {
    hide Print, Quote;
    var args := Arguments(call.arguments, readArgs);
    PrintedCallText(call.name, args);
    QuotedKeys();
    assert Print(String(call.name)) == Quote(call.name) && Print(String(call.arguments)) == Quote(call.arguments) by {
      PrintedString(call.name);
      PrintedString(call.arguments);
    }
    var json := Print(Object(CallMembers(call.name, args)));
    assert json == "{\"arguments\":" + (Print(args) + (",\"name\":" + (Quote(call.name) + "}")));
    assert CALL_OPEN + ("\n" + (json + ("\n" + CALL_CLOSE))) == "<tool_call>\n" + json + "\n</tool_call>";
  }

  lemma PrintedString(s: string)
    ensures Print(String(s)) == Quote(s)
  {
  }

  lemma QuotedKeys()
    ensures Quote("arguments") == "\"arguments\"" && Quote("name") == "\"name\""
  {
    hide Escape;
    PlainEscape("arguments");
    PlainEscape("name");
  }

  lemma PlainChar(c: char)
    requires 'a' <= c <= 'z'
    ensures EscapeChar(c) == [c]
  {
    PrintedCharacters(c);
  }

  lemma {:induction false} PlainEscape(s: string)
    requires forall c :: c in s ==> 'a' <= c <= 'z'
    ensures Escape(s) == s
    decreases |s|
  {
    hide EscapeChar;
    if s != "" {
      assert s[0] in s && forall c :: c in s[1..] ==> c in s;
      PlainChar(s[0]);
      PlainEscape(s[1..]);
      assert [s[0]] + s[1..] == s;
    }
  }

  /** Each further call is appended on a line of its own; a malformed one, and nothing, add nothing. */
  lemma TextGrows(existing: string, calls: seq<ToolCall>, call: ToolCall, readArgs: string -> Option<Json>)
    ensures AssistantText(existing, [], readArgs) == existing
    ensures var text := AssistantText(existing, calls, readArgs);
            AssistantText(existing, calls + [call], readArgs)
            == if call.Malformed? then text
               else text + (if text == "" then "" else "\n") + Written(call, readArgs)
  {
    hide Block, Written;
    assert existing + "" == existing;
    if call.Call? {
      BlockIsWritten(call, readArgs);
    }
    BlocksGrow(existing, calls, call, readArgs);
  }

  lemma {:induction false} BlocksGrow(text: string, calls: seq<ToolCall>, call: ToolCall,
      readArgs: string -> Option<Json>)
    ensures var grown := text + Blocks(text != "", calls, readArgs);
            text + Blocks(text != "", calls + [call], readArgs)
            == if call.Malformed? then grown
               else grown + (if grown == "" then "" else "\n") + Block(call, readArgs)
    decreases |calls|
  {
    hide Block;
    if calls == [] {
      assert calls + [call] == [call] && [call][1..] == [];
      assert text + "" == text;
      if call.Call? {
        BlocksStep(text, [call], readArgs);
        NoMoreBlocks((if text != "" then text + "\n" else text) + Block(call, readArgs), readArgs);
      }
    } else {
      assert (calls + [call])[1..] == calls[1..] + [call] && (calls + [call])[0] == calls[0];
      if calls[0].Malformed? {
        BlocksGrow(text, calls[1..], call, readArgs);
      } else {
        BlocksStep(text, calls, readArgs);
        BlocksStep(text, calls + [call], readArgs);
        var next := (if text != "" then text + "\n" else text) + Block(calls[0], readArgs);
        BlocksGrow(next, calls[1..], call, readArgs);
      }
    }
  }

  lemma NoMoreBlocks(text: string, readArgs: string -> Option<Json>)
    ensures text + Blocks(true, [], readArgs) == text
  {
  }

  /** With no malformed entry and no empty name the calls come back one for one. */
  lemma {:induction false} OneForOne(calls: seq<ToolCall>, readArgs: string -> Option<Json>)
    requires forall k :: 0 <= k < |calls| ==> calls[k].Call? && calls[k].name != ""
    ensures |Expected(calls, readArgs)| == |calls|
    ensures forall k :: 0 <= k < |calls| ==> Expected(calls, readArgs)[k] == Back(calls[k], readArgs)
    decreases |calls|
  {
    hide Back;
    if calls != [] {
      OneForOne(calls[1..], readArgs);
    }
  }

  /**
   Recovered arguments are JSON again: the value the argument text reads as, null turned into {}, or
   the argument text itself as a string if it is not JSON.
   */
  lemma ArgumentsReadBack(call: ToolCall, readArgs: string -> Option<Json>)
    requires call.Call? && ReadsJson(readArgs)
    ensures ReadValue(Back(call, readArgs).arguments)
         == Got(match readArgs(call.arguments)
                case Some(Null) => Object(NoMembers)
                case Some(args) => args
                case None => String(call.arguments), "")
  {
    hide Print, ReadValue;
    BackIs(call, readArgs);
    var args := if Arguments(call.arguments, readArgs).Null? then Object(NoMembers)
        else Arguments(call.arguments, readArgs);
    assert WellFormed(args);
    ValueRoundTrip(args, "");
    EmptyObject();
    assert Print(args) + "" == Print(args);
  }

  lemma EmptyObject()
    ensures Print(Object(NoMembers)) == "{}"
  {
  }

  // ---- what the user sees -----------------------------------------------------------------------------

  /** The visible part of the printed text is the original text and the separators, no trace of a call. */
  function Separators(started: bool, calls: seq<ToolCall>): string
    decreases |calls|
  {
    if calls == [] then ""
    else if calls[0].Malformed? then Separators(started, calls[1..])
    else Separator(started) + Separators(true, calls[1..])
  }

  lemma {:induction false} StripOfBlocks(before: string, started: bool, calls: seq<ToolCall>,
      readArgs: string -> Option<Json>)
    requires ReadsJson(readArgs) && Free(before, CALL_OPEN)
    ensures Strip(before + Blocks(started, calls, readArgs), CALL_OPEN, CALL_CLOSE)
            == before + Separators(started, calls)
    decreases |calls|
  {
    hide Block, NextCut, Free, Print, Arguments, ReadsJson, Strip, Separator;
    if calls == [] {
      assert before + "" == before;
      NothingToCut(before);
    } else if calls[0].Malformed? {
      StripOfBlocks(before, started, calls[1..], readArgs);
    } else {
      var after := Blocks(true, calls[1..], readArgs);
      FirstBlockIsCut(before, started, calls, readArgs);
      FreeWithoutFirst("", CALL_OPEN);
      StripOfBlocks("", true, calls[1..], readArgs);
      StripOfCut(before + Blocks(started, calls, readArgs));
      NoPrefix(after);
      NoPrefix(Separators(true, calls[1..]));
      Joined(before, Separator(started), "", Separators(true, calls[1..]), Separators(true, calls[1..]));
    }
  }

  lemma NoPrefix(s: string)
    ensures "" + s == s
  {
  }

  lemma StripOfCut(s: string)
    ensures match NextCut(s, CALL_OPEN, CALL_CLOSE)
            case Span(before, inside, after) => Strip(s, CALL_OPEN, CALL_CLOSE)
                == before + Strip(after, CALL_OPEN, CALL_CLOSE)
            case _ => true
  {
    hide NextCut;
  }

  lemma NothingToCut(s: string)
    requires Free(s, CALL_OPEN)
    ensures Strip(s, CALL_OPEN, CALL_CLOSE) == s
  {
    FreeIsNotFound(s, CALL_OPEN);
  }

  lemma {:induction false} TrimLeftThen(s: string, c: char)
    requires IsSpace(c)
    ensures TrimLeft(s + [c]) == if TrimLeft(s) == "" then "" else TrimLeft(s) + [c]
    decreases |s|
  {
    hide IsSpace;
    if s == "" {
      assert s + [c] == [c] && [c][1..] == "";
    } else {
      assert (s + [c])[1..] == s[1..] + [c];
      TrimLeftThen(s[1..], c);
    }
  }

  lemma TrimRightThen(s: string, c: char)
    requires IsSpace(c)
    ensures TrimRight(s + [c]) == TrimRight(s)
  {
    hide IsSpace;
    assert (s + [c])[..|s|] == s;
  }

  lemma {:induction false} TrimIgnoresNewlines(s: string, calls: seq<ToolCall>, started: bool)
    ensures TrimSpace(s + Separators(started, calls)) == TrimSpace(s)
    decreases |calls|
  {
    hide TrimSpace;
    if calls == [] {
      assert s + "" == s;
    } else if calls[0].Malformed? {
      TrimIgnoresNewlines(s, calls[1..], started);
    } else {
      TrimIgnoresNewlines(s + Separator(started), calls[1..], true);
      Joined(s, Separator(started), "", Separators(true, calls[1..]), Separators(true, calls[1..]));
      NoPrefix(Separators(true, calls[1..]));
      if started {
        OneNewline(s);
      } else {
        assert s + "" == s;
      }
    }
  }

  lemma OneNewline(s: string)
    ensures TrimSpace(s + "\n") == TrimSpace(s)
  {
    TrimLeftThen(s, '\n');
    TrimRightThen(TrimLeft(s), '\n');
  }

  /** Of the printed text the user sees the original text, trimmed, and nothing of the calls. */
  lemma VisibleTextIsTheOriginal(existing: string, calls: seq<ToolCall>, readArgs: string -> Option<Json>)
    requires ReadsJson(readArgs)
    requires Free(existing, THINK_OPEN) && Free(existing, CALL_OPEN)
    ensures var text := AssistantText(existing, calls, readArgs);
            TrimSpace(Strip(Strip(text, THINK_OPEN, THINK_CLOSE), CALL_OPEN, CALL_CLOSE)) == TrimSpace(existing)
  {
    hide Strip, Free, Blocks, ReadsJson, TrimSpace;
    BlocksHaveNoThink(existing, existing != "", calls, readArgs);
    NothingToStrip(AssistantText(existing, calls, readArgs));
    StripOfBlocks(existing, existing != "", calls, readArgs);
    TrimIgnoresNewlines(existing, calls, existing != "");
  }
}
