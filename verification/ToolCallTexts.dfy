/**
 Tool calls as a model writes them: call objects with any white space, spelling, order and further
 members. What the parser makes of every such block, and that it takes nothing else for a call.
 */
module ToolCallTexts {
  import opened Wrappers
  import opened Text
  import opened Json
  import opened JsonText
  import opened BraceScan
  import opened ToolCalls

  // ---- which members count ---------------------------------------------------------------------------

  /** The key is "name", in any mixture of cases. */
  predicate IsName(key: string) {
    |key| == 4 && key[0] in "nN" && key[1] in "aA" && key[2] in "mM" && key[3] in "eE"
  }

  /** The key is "arguments", in any mixture of cases; the long s is a case of s. */
  predicate IsArguments(key: string) {
    && |key| == 9 && key[0] in "aA" && key[1] in "rR" && key[2] in "gG" && key[3] in "uU" && key[4] in "mM"
    && key[5] in "eE" && key[6] in "nN" && key[7] in "tT" && key[8] in "sS\U{17F}"
  }

  lemma FoldAt(key: string, i: nat)
    requires i < |key|
    ensures |Fold(key)| == |key| && Fold(key)[i] == FoldChar(key[i])
  {
    if i > 0 {
      FoldAt(key[1..], i - 1);
    } else {
      FoldLength(key);
    }
  }

  lemma {:induction false} FoldLength(key: string)
    ensures |Fold(key)| == |key|
    decreases |key|
  {
    if key != "" {
      FoldLength(key[1..]);
    }
  }

  lemma KeyIsName(key: string)
    ensures Fold(key) == "name" <==> IsName(key)
  {
    hide Fold;
    FoldLength(key);
    if |key| == 4 {
      FoldAt(key, 0);
      FoldAt(key, 1);
      FoldAt(key, 2);
      FoldAt(key, 3);
    }
  }

  lemma KeyIsArguments(key: string)
    ensures Fold(key) == "arguments" <==> IsArguments(key)
  {
    hide Fold, FoldChar;
    FoldLength(key);
    if |key| == 9 {
      forall i | 0 <= i < 9
        ensures Fold(key)[i] == FoldChar(key[i])
      {
        FoldAt(key, i);
      }
      FoldsTo(key[0], 'a', 'A');
      FoldsTo(key[1], 'r', 'R');
      FoldsTo(key[2], 'g', 'G');
      FoldsTo(key[3], 'u', 'U');
      FoldsTo(key[4], 'm', 'M');
      FoldsTo(key[5], 'e', 'E');
      FoldsTo(key[6], 'n', 'N');
      FoldsTo(key[7], 't', 'T');
      FoldsTo(key[8], 's', 'S');
    }
  }

  lemma FoldsTo(c: char, lower: char, upper: char)
    requires 'a' <= lower <= 'z' && upper as int + 32 == lower as int
    ensures FoldChar(c) == lower <==> c == lower || c == upper || (lower == 's' && c == '\U{17F}')
  {
  }

  /** The name a call object gives: that of its last member so called, if it is a string; null changes nothing. */
  function LastName(es: Entries, sofar: string): string {
    match es
    case NoEntries => sofar
    case Entry(_, key, _, _, v, _, rest) =>
      LastName(rest, if IsName(GlyphsMeaning(key)) && v.VString? then GlyphsMeaning(v.glyphs) else sofar)
  }

  /** A name that is neither a string nor null spoils the call. */
  predicate BadName(es: Entries) {
    match es
    case NoEntries => false
    case Entry(_, key, _, _, v, _, rest) =>
      (IsName(GlyphsMeaning(key)) && !v.VString? && !v.VNull?) || BadName(rest)
  }

  /** The arguments: the text of the last member so called, as it stands. */
  function LastArguments(es: Entries, sofar: Option<Value>): Option<Value> {
    match es
    case NoEntries => sofar
    case Entry(_, key, _, _, v, _, rest) =>
      LastArguments(rest, if IsArguments(GlyphsMeaning(key)) then Some(v) else sofar)
  }

  function TextOf(v: Option<Value>): string { if v.Some? then ValueText(v.value) else "" }

  // ---- reading a call object -----------------------------------------------------------------------------

  /** What the decoder fills in, member by member. */
  function Collected(f: Fields, es: Entries): Fields
    decreases es
  {
    match es
    case NoEntries => f
    case Entry(_, key, _, _, v, _, rest) =>
      Collected(SetField(f, GlyphsMeaning(key), Meaning(v), ValueText(v)), rest)
  }

  lemma {:induction false} CollectedIs(f: Fields, es: Entries, args: Option<Value>)
    requires f.arguments == TextOf(args)
    ensures Collected(f, es) == Fields(LastName(es, f.name), TextOf(LastArguments(es, args)), f.mistyped || BadName(es))
    decreases es
  {
    hide Fold, ValueText, GlyphsMeaning, IsName, IsArguments;
    if es.Entry? {
      var key := GlyphsMeaning(es.key);
      KeyIsName(key);
      KeyIsArguments(key);
      assert !(IsName(key) && IsArguments(key)) by { NotBoth(key); }
      var g := SetField(f, key, Meaning(es.value), ValueText(es.value));
      CollectedIs(g, es.rest, if IsArguments(key) then Some(es.value) else args);
    }
  }

  lemma NotBoth(key: string)
    ensures !(IsName(key) && IsArguments(key))
  {
  }

  lemma {:induction false} EntriesCollect(es: Entries, rest: string, f: Fields)
    requires es.Entry? && ProperEntries(es)
    ensures ReadFields(EntriesText(es) + ("}" + rest), f) == Got(Collected(f, es), rest)
    decreases es
  {
    hide ValueText, ReadValue, SkipWs, Meaning, Delimited, ReadKey, StringText, EntriesText, SetField, GlyphsMeaning;
    var close := "}" + rest;
    var more := Behind(es.rest, close);
    var value := ValueText(es.value) + (es.after + more);
    var t := StringText(es.key) + (es.beforeColon + (":" + (es.afterColon + value)));
    EntryShape(es, close);
    BlankBefore(es.before, t);
    ValueStarts(es.value);
    KeyReads(es.key, es.beforeColon, es.afterColon, value);
    AfterValue(es.after, more);
    SpelledReads(es.value, es.after + more);
    assert value[..|value| - |es.after + more|] == ValueText(es.value);
    if es.rest.NoEntries? {
      assert close[1..] == rest;
    } else {
      assert more[1..] == EntriesText(es.rest) + close;
      EntriesCollect(es.rest, rest, SetField(f, GlyphsMeaning(es.key), Meaning(es.value), ValueText(es.value)));
    }
  }

  /** What a call object says, by its members; nothing if a name is spoilt. */
  function Said(v: Value): Option<Fields>
    requires v.VObject?
  {
    if BadName(v.entries) then None
    else Some(Fields(LastName(v.entries, ""), TextOf(LastArguments(v.entries, None)), false))
  }

  function Finish(r: Read<Fields>): Option<Fields> {
    if r.Got? && SkipWs(r.rest) == "" && !r.value.mistyped then Some(r.value) else None
  }

  lemma CallAtBrace(before: string, body: string)
    requires Blank(before)
    ensures var u := SkipWs(body);
            ReadCall(before + ("{" + body))
            == Finish(if u != "" && u[0] == '}' then Got(NO_FIELDS, u[1..]) else ReadFields(u, NO_FIELDS))
  {
    SkipBlank(before, "{" + body);
    assert ("{" + body)[1..] == body && SkipWs("{" + body) == "{" + body;
    hide ReadFields, SkipWs;
  }

  lemma BlankIsSkipped(w: string)
    requires Blank(w)
    ensures SkipWs(w) == ""
  {
    SkipBlank(w, "");
    assert w + "" == w;
  }

  /** Every call object is decoded to what it says, whatever white space it is written with. */
  lemma CallObjectReads(before: string, v: Value, after: string)
    requires Blank(before) && Proper(v) && v.VObject? && Blank(after)
    ensures ReadCall(before + (ValueText(v) + after)) == Said(v)
  {
    hide ReadFields, EntriesText, LastName, BadName, LastArguments, TextOf, ReadCall, ProperEntries;
    var body := Inner(v) + ("}" + after);
    assert ValueText(v) + after == "{" + body;
    CallAtBrace(before, body);
    BlankIsSkipped(after);
    NothingSaid();
    if v.entries.NoEntries? {
      SkipBlank(v.gap, "}" + after);
      assert ("}" + after)[1..] == after;
    } else {
      EntriesStart(v.entries, "}" + after);
      FieldsBehindBlanks(SkipWs(body), body, NO_FIELDS);
      EntriesCollect(v.entries, after, NO_FIELDS);
      CollectedIs(NO_FIELDS, v.entries, None);
    }
  }

  lemma NothingSaid()
    ensures LastName(NoEntries, "") == "" && LastArguments(NoEntries, None) == None && !BadName(NoEntries)
    ensures TextOf(None) == ""
  {
  }

  lemma FieldsBehindBlanks(t: string, s: string, f: Fields)
    requires t == SkipWs(s)
    ensures ReadFields(t, f) == ReadFields(s, f)
  {
    hide SkipWs, ReadKey, ReadFields;
    SkipTwice(s);
    OnlyBehindBlanks(t, s);
    FieldsFromKey(t, s, f);
  }

  lemma FieldsFromKey(t: string, s: string, f: Fields)
    requires ReadKey(t) == ReadKey(s)
    ensures ReadFields(t, f) == ReadFields(s, f)
  {
    hide SkipWs, ReadKey, ReadValue, SetField;
  }

  // ---- the scanner on any spelling -------------------------------------------------------------------------

  lemma DigitIsPlain(c: char, n: nat)
    requires DigitIs(c, n)
    ensures c != '"' && c != '\\'
  {
  }

  lemma DigitsArePlain(digits: string, code: nat)
    requires CodeIs(digits, code)
    ensures forall c :: c in digits ==> c != '"' && c != '\\'
  {
    hide DigitIs;
    DigitIsPlain(digits[0], code / 256 / 16);
    DigitIsPlain(digits[1], code / 256 % 16);
    DigitIsPlain(digits[2], code % 256 / 16);
    DigitIsPlain(digits[3], code % 256 % 16);
  }

  lemma CodedScan(digits: string, code: nat, d: int)
    requires CodeIs(digits, code)
    ensures var s := "\\u" + digits;
            Run(Scan(d, true, false), s) == Scan(d, true, false) && Above(Scan(d, true, false), s, d)
  {
    hide Run, Above, CodeIs;
    DigitsArePlain(digits, code);
    assert "\\u" + digits == ['\\', 'u'] + digits;
    BackslashPair('u', digits, d);
  }

  lemma GlyphScan(g: Glyph, d: int)
    requires GlyphOk(g)
    ensures Run(Scan(d, true, false), GlyphText(g)) == Scan(d, true, false)
    ensures Above(Scan(d, true, false), GlyphText(g), d)
  {
    hide Run, Above, CodeIs;
    match g
    case Plain(c) => PlainInString([c], d);
    case Short(letter, _) =>
      BackslashPair(letter, "", d);
      assert ['\\', letter] + "" == ['\\', letter];
    case Coded(digits, code) => CodedScan(digits, code, d);
    case Pair(high, h, low, l) =>
      CodedScan(high, h, d);
      CodedScan(low, l, d);
      RunConcat(Scan(d, true, false), "\\u" + high, "\\u" + low);
      AboveConcat(Scan(d, true, false), "\\u" + high, "\\u" + low, d);
  }

  lemma {:induction false} GlyphsScan(gs: seq<Glyph>, d: int)
    requires GlyphsOk(gs)
    ensures Run(Scan(d, true, false), GlyphsText(gs)) == Scan(d, true, false)
    ensures Above(Scan(d, true, false), GlyphsText(gs), d)
    decreases |gs|
  {
    if gs != [] {
      hide GlyphOk, GlyphText, Apart;
      TailOk(gs);
      GlyphScan(gs[0], d);
      GlyphsScan(gs[1..], d);
      RunConcat(Scan(d, true, false), GlyphText(gs[0]), GlyphsText(gs[1..]));
      AboveConcat(Scan(d, true, false), GlyphText(gs[0]), GlyphsText(gs[1..]), d);
    }
  }

  lemma LevelString(gs: seq<Glyph>, d: int)
    requires GlyphsOk(gs)
    ensures Level(StringText(gs), d)
  {
    hide GlyphsOk, GlyphsText;
    var out, in_ := Scan(d, false, false), Scan(d, true, false);
    GlyphsScan(gs, d);
    RunConcat(in_, GlyphsText(gs), "\"");
    assert Run(in_, "\"") == out && Above(in_, "\"", d) by {
      assert "\""[1..] == "";
    }
    AboveConcat(in_, GlyphsText(gs), "\"", d);
    assert StringText(gs)[1..] == GlyphsText(gs) + "\"";
  }

  lemma LevelBlank(w: string, d: int)
    requires Blank(w)
    ensures Level(w, d)
  {
    hide Level;
    LevelPlain(w, d);
  }

  lemma LevelThree(a: string, b: string, c: string, d: int)
    requires Level(a, d) && Level(b, d) && Level(c, d)
    ensures Level(a + (b + c), d)
  {
    hide Level;
    LevelConcat(b, c, d);
    LevelConcat(a, b + c, d);
  }

  /** Any spelling of a value leaves the scanner where it was, and never drops below its depth. */
  lemma {:induction false} LevelText(v: Value, d: int)
    requires Proper(v)
    ensures Level(ValueText(v), d)
    decreases v
  {
    hide Level, StringText, DigitsText, GlyphsOk, ElemsText, EntriesText, DigitsOk, ProperElems, ProperEntries;
    match v
    case VNull => LevelPlain("null", d);
    case VBool(b) => LevelPlain(ValueText(v), d);
    case VNumber(digits) =>
      NumberReads(digits);
      LevelPlain(DigitsText(digits), d);
    case VString(gs) => LevelString(gs, d);
    case VArray(gap, elems) =>
      LevelPlain("[", d);
      LevelPlain("]", d);
      if elems.NoElems? {
        LevelBlank(gap, d);
        LevelThree("[", gap, "]", d);
      } else {
        LevelElems(elems, d);
        LevelThree("[", ElemsText(elems), "]", d);
      }
    case VObject(gap, entries) =>
      LevelInner(v, d + 1);
      LevelBraces(Inner(v), d);
  }

  function Inner(v: Value): string
    requires v.VObject?
  {
    if v.entries.NoEntries? then v.gap else EntriesText(v.entries)
  }

  lemma {:induction false} LevelInner(v: Value, d: int)
    requires Proper(v) && v.VObject?
    ensures Level(Inner(v), d)
    decreases v, 0
  {
    hide Level, EntriesText;
    if v.entries.NoEntries? {
      LevelBlank(v.gap, d);
    } else {
      LevelEntries(v.entries, d);
    }
  }

  lemma {:induction false} LevelElems(es: Elems, d: int)
    requires ProperElems(es) && es.Elem?
    ensures Level(ElemsText(es), d)
    decreases es
  {
    hide Level, ValueText, Proper;
    var x := if es.rest.NoElems? then "" else "," + ElemsText(es.rest);
    LevelBlank(es.before, d);
    LevelText(es.value, d);
    LevelBlank(es.after, d);
    if es.rest.NoElems? {
      LevelPlain("", d);
    } else {
      LevelPlain(",", d);
      LevelElems(es.rest, d);
      LevelConcat(",", ElemsText(es.rest), d);
    }
    LevelConcat(es.after, x, d);
    LevelThree(es.before, ValueText(es.value), es.after + x, d);
  }

  lemma {:induction false} LevelEntries(es: Entries, d: int)
    requires ProperEntries(es) && es.Entry?
    ensures Level(EntriesText(es), d)
    decreases es
  {
    hide Level, ValueText, Proper, StringText, GlyphsOk;
    var x := if es.rest.NoEntries? then "" else "," + EntriesText(es.rest);
    LevelBlank(es.before, d);
    LevelString(es.key, d);
    LevelBlank(es.beforeColon, d);
    LevelPlain(":", d);
    LevelBlank(es.afterColon, d);
    LevelText(es.value, d);
    LevelBlank(es.after, d);
    if es.rest.NoEntries? {
      LevelPlain("", d);
    } else {
      LevelPlain(",", d);
      LevelEntries(es.rest, d);
      LevelConcat(",", EntriesText(es.rest), d);
    }
    var value := ValueText(es.value) + (es.after + x);
    LevelThree(ValueText(es.value), es.after, x, d);
    LevelThree(":", es.afterColon, value, d);
    LevelThree(StringText(es.key), es.beforeColon, ":" + (es.afterColon + value), d);
    LevelConcat(es.before, StringText(es.key) + (es.beforeColon + (":" + (es.afterColon + value))), d);
  }

  /** Any spelling of an object is cut out exactly, whatever follows it. */
  lemma SpelledObjectIsExtracted(v: Value, rest: string)
    requires Proper(v) && v.VObject?
    ensures Extract(ValueText(v) + rest) == Found(ValueText(v))
  {
    hide EntriesText, Level, Extract;
    LevelInner(v, 1);
    BracesAreExtracted(Inner(v), rest);
    assert ("{" + (Inner(v) + "}")) + rest == "{" + (Inner(v) + ("}" + rest));
  }

  // ---- a whole block --------------------------------------------------------------------------------------

  lemma TrimmedIs(s: string)
    requires Trimmed(s)
    ensures TrimSpace(s) == s
  {
    hide TrimSpace, Trimmed;
    TrimIs("", s, "");
    assert "" + s + "" == s;
  }

  lemma LastDigit(d: Digits)
    requires DigitsOk(d)
    ensures DigitsText(d) != "" && Trimmed(DigitsText(d))
  {
    hide ValidNumber, DigitsText, DigitsOk, IsSpace;
    NumberReads(d);
    NumberStarts(DigitsText(d));
    var t := DigitsText(d);
    assert t[0] in t && t[|t| - 1] in t;
    NumberCharIsNoSpace(t[0]);
    NumberCharIsNoSpace(t[|t| - 1]);
  }

  lemma NumberCharIsNoSpace(c: char)
    requires IsNumberChar(c)
    ensures !IsSpace(c)
  {
  }

  lemma BracketIsNoSpace(c: char)
    requires c in "nltfe\"[]{}"
    ensures !IsSpace(c)
  {
  }

  /** A value's text has no white space at its edges, and is "null" only if it is null. */
  lemma TextIsTrimmed(v: Value)
    requires Proper(v)
    ensures ValueText(v) != "" && Trimmed(ValueText(v)) && (ValueText(v) == "null" <==> v.VNull?)
  {
    hide IsSpace, GlyphsText, ElemsText, EntriesText, DigitsText, DigitsOk, GlyphsOk, ProperElems, ProperEntries;
    var t := ValueText(v);
    if v.VNumber? {
      LastDigit(v.digits);
      NumberReads(v.digits);
      NumberStarts(t);
    } else {
      BracketIsNoSpace(t[0]);
      BracketIsNoSpace(t[|t| - 1]);
    }
  }

  /** What the recovered call carries as arguments. */
  function ArgumentsSaid(v: Value): string
    requires v.VObject?
  {
    match LastArguments(v.entries, None)
    case None => "{}"
    case Some(VNull) => "{}"
    case Some(a) => ValueText(a)
  }

  lemma {:induction false} LastIsProper(es: Entries, sofar: Option<Value>)
    requires ProperEntries(es) && (sofar.Some? ==> Proper(sofar.value))
    ensures LastArguments(es, sofar).Some? ==> Proper(LastArguments(es, sofar).value)
    decreases es
  {
    hide Proper, GlyphsOk, IsArguments, GlyphsMeaning;
    if es.Entry? {
      LastIsProper(es.rest, if IsArguments(GlyphsMeaning(es.key)) then Some(es.value) else sofar);
    }
  }

  lemma DefaultedIs(v: Value)
    requires Proper(v) && v.VObject?
    ensures Defaulted(TextOf(LastArguments(v.entries, None))) == ArgumentsSaid(v)
  {
    hide LastArguments, ValueText, ProperEntries, TrimSpace, Trimmed;
    LastIsProper(v.entries, None);
    var a := LastArguments(v.entries, None);
    if a.Some? {
      TextIsTrimmed(a.value);
      TrimmedIs(ValueText(a.value));
    } else {
      assert Trimmed("") by { EmptyIsTrimmed(); }
      TrimmedIs("");
    }
  }

  lemma EmptyIsTrimmed()
    ensures Trimmed("")
  {
  }

  /** The calls in a block that holds this object: one, unless it has no name or a spoilt one. */
  function CallsSaid(v: Value): seq<Recovered>
    requires v.VObject?
  {
    if BadName(v.entries) || LastName(v.entries, "") == "" then []
    else [Recovered(LastName(v.entries, ""), ArgumentsSaid(v))]
  }

  lemma BraceAt(lead: string, json: string, post: string)
    requires '{' !in lead && json != "" && json[0] == '{'
    ensures Index(lead + (json + post), "{") == |lead|
  {
    var s := lead + (json + post);
    assert s[|lead|..|lead| + 1] == "{";
    forall k | 0 <= k < |lead|
      ensures !HasAt(s, k, "{")
    {
      assert s[k] == lead[k] && lead[k] in lead;
      assert k + 1 <= |s| && s[k..k + 1] == [s[k]];
    }
    IndexIsUnique(s, "{", |lead|);
  }

  lemma BlockSays(lead: string, v: Value, post: string, after: string)
    requires Proper(v) && v.VObject? && '{' !in lead
    ensures var inside := lead + (ValueText(v) + post);
            BlockCalls(inside + (CALL_CLOSE + after), |inside|) == CallsSaid(v)
  {
    var json := ValueText(v);
    assert json != "" && json[0] == '{';
    hide ValueText, Proper, Index, Extract, ReadCall, Defaulted, LastName, BadName, LastArguments, TextOf;
    hide ArgumentsSaid;
    var inside := lead + (json + post);
    var body := inside + (CALL_CLOSE + after);
    BraceAt(lead, json, post);
    assert body[..|inside|] == inside;
    assert body[|lead|..] == json + (post + (CALL_CLOSE + after));
    SpelledObjectIsExtracted(v, post + (CALL_CLOSE + after));
    BlankNothing();
    CallObjectReads("", v, "");
    assert "" + (json + "") == json;
    DefaultedIs(v);
  }

  lemma BlankNothing()
    ensures Blank("")
  {
  }

  /**
   Every block a model writes: any text without a brace, a call object in any spelling, any text up to
   the closing tag. It yields the call the object says, and parsing goes on behind the block.
   */
  lemma SpelledBlockIsParsed(before: string, lead: string, v: Value, post: string, after: string)
    requires Free(before, "<tool_call>") && '{' !in lead && Proper(v) && v.VObject?
    requires Free(lead + (ValueText(v) + post), "</tool_call>")
    ensures Calls(before + ("<tool_call>" + ((lead + (ValueText(v) + post)) + ("</tool_call>" + after))))
         == CallsSaid(v) + Calls(after)
  {
    hide Free, NextCut, BlockCalls, ValueText, CallsSaid, Proper;
    TagsAreTags();
    CutOfSpan(before, CALL_OPEN, lead + (ValueText(v) + post), CALL_CLOSE, after);
    BlockSays(lead, v, post, after);
  }

  // ---- nothing else is a call ---------------------------------------------------------------------------------

  lemma {:induction false} FieldsLikeMembers(s: string, f: Fields)
    ensures ReadFields(s, f).Got? <==> ReadMembers(s).Got?
    ensures ReadFields(s, f).Got? ==> ReadFields(s, f).rest == ReadMembers(s).rest
    decreases |s|
  {
    hide ReadKey, ReadValue, SkipWs, SetField;
    var k := ReadKey(s);
    if k.Got? {
      var r := ReadValue(k.rest);
      if r.Got? {
        var u := SkipWs(r.rest);
        if u != "" && u[0] == ',' {
          FieldsLikeMembers(u[1..], SetField(f, k.value, r.value, k.rest[..|k.rest| - |r.rest|]));
        }
      }
    }
  }

  /** A text decoded as a call is a call object in some spelling, with blanks around it, and says just that. */
  lemma OnlyCallObjects(raw: string) returns (before: string, v: Value, after: string)
    requires ReadCall(raw).Some?
    ensures Blank(before) && Proper(v) && v.VObject? && Blank(after)
    ensures raw == before + (ValueText(v) + after) && ReadCall(raw) == Said(v)
  {
    hide ReadFields, EntriesText, ProperEntries, Said, ReadCall, SkipWs, ValueText, Proper;
    before := BlankSplit(raw);
    CallHasBrace(raw);
    var t := SkipWs(raw);
    var body := t[1..];
    assert t == "{" + body;
    CallAtBrace(before, body);
    v, after := ObjectOf(body);
    AllBlank(after);
    CallObjectReads(before, v, after);
  }

  lemma CallHasBrace(raw: string)
    requires ReadCall(raw).Some?
    ensures SkipWs(raw) != "" && SkipWs(raw)[0] == '{'
  {
  }

  /** The object whose opening brace has been passed, and what follows it. */
  lemma ObjectOf(body: string) returns (v: Value, after: string)
    requires var u := SkipWs(body);
             Finish(if u != "" && u[0] == '}' then Got(NO_FIELDS, u[1..]) else ReadFields(u, NO_FIELDS)).Some?
    ensures Proper(v) && v.VObject? && "{" + body == ValueText(v) + after && SkipWs(after) == ""
  {
    hide ReadFields, EntriesText, ProperEntries, SkipWs, ValueText, Proper;
    var gap := BlankSplit(body);
    var u := SkipWs(body);
    if u != "" && u[0] == '}' {
      v, after := VObject(gap, NoEntries), u[1..];
      assert u == "}" + after;
      EmptyObject(gap, after);
    } else {
      FieldsLikeMembers(u, NO_FIELDS);
      var es := MembersAreSpelled(u);
      v, after := VObject("", es.(before := gap + es.before)), ReadMembers(u).rest;
      FullObject(gap, es, after);
    }
  }

  lemma EmptyObject(gap: string, after: string)
    requires Blank(gap)
    ensures var v := VObject(gap, NoEntries); Proper(v) && "{" + (gap + ("}" + after)) == ValueText(v) + after
  {
    Enclosed("{", gap, "", "}", after);
  }

  lemma FullObject(gap: string, es: Entries, after: string)
    requires Blank(gap) && es.Entry? && ProperEntries(es)
    ensures var v := VObject("", es.(before := gap + es.before));
            Proper(v) && "{" + (gap + (EntriesText(es) + ("}" + after))) == ValueText(v) + after
  {
    StillProper(gap, es);
    EntriesPrepend(gap, es);
    Enclosed("{", gap, EntriesText(es), "}", after);
    hide EntriesText, ProperEntries;
  }

  lemma StillProper(gap: string, es: Entries)
    requires ProperEntries(es) && Blank(gap)
    ensures Blank("") && ProperEntries(NoEntries)
    ensures es.Entry? ==> ProperEntries(es.(before := gap + es.before))
  {
  }

  lemma AllBlank(s: string)
    requires SkipWs(s) == ""
    ensures Blank(s)
  {
    var w := BlankSplit(s);
    assert w + "" == w;
  }
}
