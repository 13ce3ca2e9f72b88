/**
 JSON as Go's encoding/json writes and reads it (sections 2 to 8 of RFC 8259): a printer with
 the HTML-safe escaping of Marshal, and a recursive-descent reader. Object members are listed in
 the order the printer emits them; a number is its text.
 */
module Json {

  datatype Json = Null | Bool(b: bool) | Number(text: string) | String(s: string) | Array(items: Items)
      | Object(members: Members)
  datatype Items = NoItems | Item(head: Json, tail: Items)
  datatype Members = NoMembers | Member(key: string, value: Json, rest: Members)

  // ---- characters ---------------------------------------------------------------------------

  predicate IsDigit(c: char) { '0' <= c <= '9' }
  predicate IsNumberChar(c: char) { IsDigit(c) || c in "+-.eE" }
  predicate IsWs(c: char) { c in " \t\n\r" }

  function HexDigit(n: nat): char
    requires n < 16
  {
    "0123456789abcdef"[n]
  }

  function HexValue(c: char): int {
    if '0' <= c <= '9' then c as int - '0' as int
    else if 'a' <= c <= 'f' then c as int - 'a' as int + 10
    else if 'A' <= c <= 'F' then c as int - 'A' as int + 10
    else -1
  }

  function Hex4(n: nat): (h: string)
    requires n < 0x10000
    ensures |h| == 4
  {
    [HexDigit(n / 256 / 16), HexDigit(n / 256 % 16), HexDigit(n % 256 / 16), HexDigit(n % 256 % 16)]
  }

  /** The value of four hexadecimal digits, or -1. */
  function ReadHex4(s: string): (v: int)
    ensures -1 <= v < 0x10000
  {
    if |s| < 4 then -1
    else
      var a, b, c, d := HexValue(s[0]), HexValue(s[1]), HexValue(s[2]), HexValue(s[3]);
      if a < 0 || b < 0 || c < 0 || d < 0 then -1 else (a * 16 + b) * 256 + (c * 16 + d)
  }

  // ---- the printer --------------------------------------------------------------------------

  predicate NeedsUnicodeEscape(c: char) { c < ' ' || c in "<>&\U{2028}\U{2029}" }

  function EscapeChar(c: char): string {
    if c == '"' then "\\\""
    else if c == '\\' then "\\\\"
    else if c == '\U{8}' then "\\b"
    else if c == '\U{C}' then "\\f"
    else if c == '\n' then "\\n"
    else if c == '\r' then "\\r"
    else if c == '\t' then "\\t"
    else if NeedsUnicodeEscape(c) then "\\u" + Hex4(c as int)
    else [c]
  }

  function Escape(s: string): string {
    if s == "" then "" else EscapeChar(s[0]) + Escape(s[1..])
  }

  function Quote(s: string): string { "\"" + (Escape(s) + "\"") }

  function Print(j: Json): string {
    match j
    case Null => "null"
    case Bool(b) => if b then "true" else "false"
    case Number(text) => text
    case String(s) => Quote(s)
    case Array(items) => "[" + (PrintItems(items) + "]")
    case Object(members) => "{" + (PrintMembers(members) + "}")
  }

  function PrintItems(items: Items): string {
    match items
    case NoItems => ""
    case Item(head, tail) => if tail.NoItems? then Print(head) else Print(head) + ("," + PrintItems(tail))
  }

  function PrintMembers(ms: Members): string {
    match ms
    case NoMembers => ""
    case Member(key, value, rest) =>
      var first := Quote(key) + (":" + Print(value));
      if rest.NoMembers? then first else first + ("," + PrintMembers(rest))
  }

  /** Characters that need no escape are printed as they are, control characters as a short escape or \\u00xx. */
  lemma PrintedCharacters(c: char)
    ensures c as int >= 0x20 && c !in "\"\\<>&\U{2028}\U{2029}" ==> EscapeChar(c) == [c]
    ensures c as int < 0x20 && c !in "\n\r\t\U{8}\U{C}" ==> |EscapeChar(c)| == 6 && EscapeChar(c)[..2] == "\\u"
  {
    hide Hex4;
  }

  lemma ShortEscapes()
    ensures EscapeChar('"') == "\\\"" && EscapeChar('\\') == "\\\\" && EscapeChar('\n') == "\\n"
    ensures EscapeChar('\r') == "\\r" && EscapeChar('\t') == "\\t"
    ensures EscapeChar('\U{8}') == "\\b" && EscapeChar('\U{C}') == "\\f"
  {
    hide Hex4;
  }

  /** The HTML-safe escapes, in lower-case digits. */
  lemma SafeEscapes()
    ensures EscapeChar('<') == "\\u003c" && EscapeChar('>') == "\\u003e" && EscapeChar('&') == "\\u0026"
    ensures EscapeChar('\U{2028}') == "\\u2028" && EscapeChar('\U{2029}') == "\\u2029"
  {
    hide EscapeChar;
    SafeEscape('<', 0, 0, 3, 12);
    SafeEscape('>', 0, 0, 3, 14);
    SafeEscape('&', 0, 0, 2, 6);
    SafeEscape('\U{2028}', 2, 0, 2, 8);
    SafeEscape('\U{2029}', 2, 0, 2, 9);
  }

  lemma SafeEscape(c: char, p: nat, q: nat, r: nat, s: nat)
    requires c in "<>&\U{2028}\U{2029}" && p < 16 && q < 16 && r < 16 && s < 16
    requires c as int == (p * 16 + q) * 256 + (r * 16 + s)
    ensures EscapeChar(c) == "\\u" + [HexDigit(p), HexDigit(q), HexDigit(r), HexDigit(s)]
  {
    hide Hex4, HexDigit;
    HexIs(c as int, p, q, r, s);
  }

  lemma HexIs(n: nat, p: nat, q: nat, r: nat, s: nat)
    requires p < 16 && q < 16 && r < 16 && s < 16 && n == (p * 16 + q) * 256 + (r * 16 + s)
    ensures n < 0x10000 && Hex4(n) == [HexDigit(p), HexDigit(q), HexDigit(r), HexDigit(s)]
  {
    hide HexDigit;
    assert n / 256 == p * 16 + q && n % 256 == r * 16 + s;
    assert n / 256 / 16 == p && n / 256 % 16 == q && n % 256 / 16 == r && n % 256 % 16 == s;
  }

  /** Nothing is printed between the tokens. */
  lemma PrintedShapes(a: Json, b: Json, k: string, l: string)
    ensures Print(Null) == "null" && Print(Bool(true)) == "true" && Print(Bool(false)) == "false"
    ensures Print(Array(NoItems)) == "[]" && Print(Object(NoMembers)) == "{}"
    ensures Print(Array(Item(a, Item(b, NoItems)))) == "[" + ((Print(a) + ("," + Print(b))) + "]")
    ensures Print(Object(Member(k, a, Member(l, b, NoMembers))))
         == "{" + (((Quote(k) + (":" + Print(a))) + ("," + (Quote(l) + (":" + Print(b))))) + "}")
    ensures Quote(k) == "\"" + (Escape(k) + "\"")
  {
    hide Escape;
    assert PrintItems(Item(b, NoItems)) == Print(b);
    assert PrintMembers(Member(l, b, NoMembers)) == Quote(l) + (":" + Print(b));
  }

  // ---- numbers --------------------------------------------------------------------------------

  function SkipDigits(s: string): (r: string)
    ensures |r| <= |s|
  {
    if s != "" && IsDigit(s[0]) then SkipDigits(s[1..]) else s
  }

  predicate ValidExponent(s: string) {
    s == "" ||
    (s[0] in "eE" &&
     var t := if |s| > 1 && s[1] in "+-" then s[2..] else s[1..];
     t != "" && IsDigit(t[0]) && SkipDigits(t) == "")
  }

  predicate ValidFraction(s: string) {
    if s != "" && s[0] == '.' then |s| > 1 && IsDigit(s[1]) && ValidExponent(SkipDigits(s[1..])) else ValidExponent(s)
  }

  /** The number grammar: section 6 of RFC 8259. */
  predicate ValidNumber(s: string) {
    var t := if s != "" && s[0] == '-' then s[1..] else s;
    t != "" && IsDigit(t[0]) && ValidFraction(if t[0] == '0' then t[1..] else SkipDigits(t))
  }

  /** Values as Marshal prints them: number texts are JSON numbers. */
  ghost predicate WellFormed(j: Json) {
    match j
    case Number(text) => ValidNumber(text) && forall c :: c in text ==> IsNumberChar(c)
    case Array(items) => WellFormedItems(items)
    case Object(members) => WellFormedMembers(members)
    case _ => true
  }

  ghost predicate WellFormedItems(items: Items) {
    items.Item? ==> WellFormed(items.head) && WellFormedItems(items.tail)
  }

  ghost predicate WellFormedMembers(ms: Members) {
    ms.Member? ==> WellFormed(ms.value) && WellFormedMembers(ms.rest)
  }

  // ---- the reader -----------------------------------------------------------------------------

  datatype Read<+T> = Got(value: T, rest: string) | Bad {
    predicate IsFailure() { Bad? }
    function PropagateFailure<U>(): Read<U> requires Bad? { Bad }
    function Extract(): (T, string) requires Got? { (value, rest) }
  }

  function SkipWs(s: string): (r: string)
    ensures |r| <= |s|
    ensures s != "" && !IsWs(s[0]) ==> r == s
  {
    if s != "" && IsWs(s[0]) then SkipWs(s[1..]) else s
  }

  function SimpleEscape(c: char): string {
    if c == '"' then "\"" else if c == '\\' then "\\" else if c == '/' then "/"
    else if c == 'b' then "\U{8}" else if c == 'f' then "\U{C}"
    else if c == 'n' then "\n" else if c == 'r' then "\r" else if c == 't' then "\t" else ""
  }

  /** A \u escape: a surrogate pair makes one character, a lone surrogate the replacement character. */
  function UnicodeEscape(s: string): (r: Read<char>)
    requires |s| >= 2
    ensures r.Got? ==> |r.rest| < |s|
  {
    var v := ReadHex4(s[2..]);
    if v < 0 then Bad
    else if v < 0xD800 || 0xE000 <= v then Got(v as char, s[6..])
    else
      var low := if v < 0xDC00 && |s| >= 8 && s[6] == '\\' && s[7] == 'u' then ReadHex4(s[8..]) else -1;
      if 0xDC00 <= low < 0xE000 then Got((0x10000 + (v - 0xD800) * 0x400 + (low - 0xDC00)) as char, s[12..])
      else Got('\U{FFFD}', s[6..])
  }

  /** The characters up to the closing quote, which is consumed. */
  function ReadString(s: string): (r: Read<string>)
    ensures r.Got? ==> |r.rest| < |s|
    decreases |s|
  {
    if s == "" then Bad
    else if s[0] == '"' then Got("", s[1..])
    else if s[0] < ' ' then Bad
    else if s[0] != '\\' then
      var (more, t) :- ReadString(s[1..]);
      Got([s[0]] + more, t)
    else if |s| < 2 then Bad
    else if s[1] == 'u' then
      var (c, t) :- UnicodeEscape(s);
      var (more, t) :- ReadString(t);
      Got([c] + more, t)
    else if SimpleEscape(s[1]) == "" then Bad
    else
      var (more, t) :- ReadString(s[2..]);
      Got(SimpleEscape(s[1]) + more, t)
  }

  function NumberSpan(s: string): (n: nat)
    ensures n <= |s|
  {
    if s != "" && IsNumberChar(s[0]) then 1 + NumberSpan(s[1..]) else 0
  }

  function ReadNumber(s: string): (r: Read<Json>)
    ensures r.Got? ==> |r.rest| < |s|
  {
    var n := NumberSpan(s);
    if n > 0 && ValidNumber(s[..n]) then Got(Number(s[..n]), s[n..]) else Bad
  }

  function Literal(s: string, word: string, j: Json): (r: Read<Json>)
    ensures r.Got? ==> |r.rest| + |word| == |s|
  {
    if |word| <= |s| && s[..|word|] == word then Got(j, s[|word|..]) else Bad
  }

  function ReadValue(s: string): (r: Read<Json>)
    ensures r.Got? ==> |r.rest| < |s|
    decreases |s|, 0
  {
    var t := SkipWs(s);
    if t == "" then Bad
    else if t[0] == '"' then
      var (str, u) :- ReadString(t[1..]);
      Got(String(str), u)
    else if t[0] == '{' then
      var u := SkipWs(t[1..]);
      if u != "" && u[0] == '}' then Got(Object(NoMembers), u[1..])
      else
        var (ms, u) :- ReadMembers(u);
        Got(Object(ms), u)
    else if t[0] == '[' then
      var u := SkipWs(t[1..]);
      if u != "" && u[0] == ']' then Got(Array(NoItems), u[1..])
      else
        var (items, u) :- ReadItems(u);
        Got(Array(items), u)
    else if t[0] == 'n' then Literal(t, "null", Null)
    else if t[0] == 't' then Literal(t, "true", Bool(true))
    else if t[0] == 'f' then Literal(t, "false", Bool(false))
    else ReadNumber(t)
  }

  function ReadItems(s: string): (r: Read<Items>)
    ensures r.Got? ==> |r.rest| < |s|
    decreases |s|, 1
  {
    var (head, t) :- ReadValue(s);
    var u := SkipWs(t);
    if u == "" then Bad
    else if u[0] == ']' then Got(Item(head, NoItems), u[1..])
    else if u[0] == ',' then
      var (tail, u) :- ReadItems(u[1..]);
      Got(Item(head, tail), u)
    else Bad
  }

  /** A key and its colon; what is left starts with the value. */
  function ReadKey(s: string): (r: Read<string>)
    ensures r.Got? ==> |r.rest| < |s|
  {
    var t := SkipWs(s);
    if t == "" || t[0] != '"' then Bad
    else
      var (key, u) :- ReadString(t[1..]);
      var v := SkipWs(u);
      if v == "" || v[0] != ':' then Bad else Got(key, SkipWs(v[1..]))
  }

  function ReadMembers(s: string): (r: Read<Members>)
    ensures r.Got? ==> |r.rest| < |s|
    decreases |s|, 1
  {
    var (key, t) :- ReadKey(s);
    var (value, t) :- ReadValue(t);
    var u := SkipWs(t);
    if u == "" then Bad
    else if u[0] == '}' then Got(Member(key, value, NoMembers), u[1..])
    else if u[0] == ',' then
      var (rest, u) :- ReadMembers(u[1..]);
      Got(Member(key, value, rest), u)
    else Bad
  }

  // ---- the reader undoes the printer ------------------------------------------------------------

  lemma HexDigits(n: nat)
    requires n < 16
    ensures HexValue(HexDigit(n)) == n
  {
  }

  lemma Hex4RoundTrip(n: nat, rest: string)
    requires n < 0x10000
    ensures ReadHex4(Hex4(n) + rest) == n
  {
    hide HexDigit, HexValue;
    var high, low := n / 256, n % 256;
    HexDigits(high / 16);
    HexDigits(high % 16);
    HexDigits(low / 16);
    HexDigits(low % 16);
  }

  function Cons(c: char, r: Read<string>): Read<string> { if r.Bad? then Bad else Got([c] + r.value, r.rest) }

  lemma UnicodeCharRoundTrip(c: char, tail: string)
    requires NeedsUnicodeEscape(c)
    ensures ReadString("\\u" + Hex4(c as int) + tail) == Cons(c, ReadString(tail))
  {
    hide Hex4, ReadHex4, SimpleEscape;
    var s := "\\u" + Hex4(c as int) + tail;
    assert s[2..] == Hex4(c as int) + tail;
    Hex4RoundTrip(c as int, tail);
    assert s[6..] == tail;
    assert UnicodeEscape(s) == Got(c, tail);
  }

  lemma SimpleCharRoundTrip(c: char, e: char, tail: string)
    requires e != 'u' && SimpleEscape(e) == [c]
    ensures ReadString(['\\', e] + tail) == Cons(c, ReadString(tail))
  {
    var s := ['\\', e] + tail;
    assert s[2..] == tail;
  }

  lemma PlainCharRoundTrip(c: char, tail: string)
    requires c != '"' && c != '\\' && !NeedsUnicodeEscape(c)
    ensures ReadString([c] + tail) == Cons(c, ReadString(tail))
  {
    assert ([c] + tail)[1..] == tail;
  }

  /** One escaped character is read back as itself. */
  lemma CharRoundTrip(c: char, tail: string)
    ensures ReadString(EscapeChar(c) + tail) == Cons(c, ReadString(tail))
  {
    hide ReadString, Hex4, Cons;
    if c == '"' {
      SimpleCharRoundTrip(c, '"', tail);
    } else if c == '\\' {
      SimpleCharRoundTrip(c, '\\', tail);
    } else if c == '\U{8}' {
      SimpleCharRoundTrip(c, 'b', tail);
    } else if c == '\U{C}' {
      SimpleCharRoundTrip(c, 'f', tail);
    } else if c == '\n' {
      SimpleCharRoundTrip(c, 'n', tail);
    } else if c == '\r' {
      SimpleCharRoundTrip(c, 'r', tail);
    } else if c == '\t' {
      SimpleCharRoundTrip(c, 't', tail);
    } else if NeedsUnicodeEscape(c) {
      UnicodeCharRoundTrip(c, tail);
    } else {
      PlainCharRoundTrip(c, tail);
    }
  }

  lemma {:induction false} StringRoundTrip(s: string, rest: string)
    ensures ReadString(Escape(s) + ("\"" + rest)) == Got(s, rest)
    decreases |s|
  {
    if s == "" {
      assert "" + ("\"" + rest) == "\"" + rest;
    } else {
      var tail := Escape(s[1..]) + ("\"" + rest);
      assert (EscapeChar(s[0]) + Escape(s[1..])) + ("\"" + rest) == EscapeChar(s[0]) + tail;
      CharRoundTrip(s[0], tail);
      StringRoundTrip(s[1..], rest);
      assert [s[0]] + s[1..] == s;
    }
  }

  /** What may follow a printed value: nothing that would prolong a number. */
  predicate Delimited(rest: string) { rest == "" || !IsNumberChar(rest[0]) }

  lemma {:induction false} NumberSpanOf(text: string, rest: string)
    requires (forall c :: c in text ==> IsNumberChar(c)) && Delimited(rest)
    ensures NumberSpan(text + rest) == |text|
    decreases |text|
  {
    if text == "" {
      assert "" + rest == rest;
    } else {
      assert (text + rest)[1..] == text[1..] + rest;
      NumberSpanOf(text[1..], rest);
    }
  }

  lemma PrintStarts(j: Json)
    requires WellFormed(j)
    ensures Print(j) != "" && !IsWs(Print(j)[0]) && Print(j)[0] !in "]}"
  {
  }

  lemma QuotedRead(s: string, rest: string)
    ensures Quote(s) + rest == "\"" + (Escape(s) + ("\"" + rest))
    ensures ReadString((Quote(s) + rest)[1..]) == Got(s, rest)
  {
    var t := Escape(s) + ("\"" + rest);
    assert Quote(s) + rest == "\"" + t;
    assert ("\"" + t)[1..] == t;
    StringRoundTrip(s, rest);
  }

  lemma LeafRoundTrip(j: Json, rest: string)
    requires j.Null? || j.Bool? || j.Number?
    requires WellFormed(j) && Delimited(rest)
    ensures ReadValue(Print(j) + rest) == Got(j, rest)
  {
    hide ReadString, ReadMembers, ReadItems, ValidNumber, NumberSpan;
    var s := Print(j) + rest;
    match j
    case Null => assert s[..4] == "null" && s[4..] == rest;
    case Bool(b) => assert if b then s[..4] == "true" && s[4..] == rest else s[..5] == "false" && s[5..] == rest;
    case Number(text) =>
      NumberStarts(text);
      NumberSpanOf(text, rest);
      assert s[..|text|] == text && s[|text|..] == rest;
  }

  lemma NumberStarts(text: string)
    requires ValidNumber(text) && forall c :: c in text ==> IsNumberChar(c)
    ensures text != "" && text[0] !in " \t\n\r\"{[ntf]}"
  {
    assert text[0] in text;
  }

  lemma {:induction false} ValueRoundTrip(j: Json, rest: string)
    requires WellFormed(j) && Delimited(rest)
    ensures ReadValue(Print(j) + rest) == Got(j, rest)
    decreases j, 1
  {
    hide ReadString, Escape, ReadMembers, ReadItems, PrintItems, PrintMembers, ReadNumber, Literal, ValidNumber;
    match j
    case Null => LeafRoundTrip(j, rest);
    case Bool(b) => LeafRoundTrip(j, rest);
    case Number(text) => LeafRoundTrip(j, rest);
    case String(str) => QuotedRead(str, rest);
    case Array(items) => ArrayRoundTrip(j, rest);
    case Object(members) => ObjectRoundTrip(j, rest);
  }

  lemma {:induction false} ArrayRoundTrip(j: Json, rest: string)
    requires j.Array? && WellFormed(j)
    ensures ReadValue(Print(j) + rest) == Got(j, rest)
    decreases j, 0
  {
    hide ReadString, Escape, ReadMembers, ReadItems, PrintItems, ReadNumber, Literal;
    var body := PrintItems(j.items) + ("]" + rest);
    assert Print(j) + rest == "[" + body && ("[" + body)[1..] == body;
    if j.items.NoItems? {
      NothingPrinted();
      assert body == "]" + rest && body[1..] == rest;
    } else {
      ItemsStart(j.items, "]" + rest);
      ItemsRoundTrip(j.items, rest);
    }
  }

  lemma {:induction false} ObjectRoundTrip(j: Json, rest: string)
    requires j.Object? && WellFormed(j)
    ensures ReadValue(Print(j) + rest) == Got(j, rest)
    decreases j, 0
  {
    hide ReadString, Escape, ReadMembers, ReadItems, PrintMembers, ReadNumber, Literal;
    var body := PrintMembers(j.members) + ("}" + rest);
    assert Print(j) + rest == "{" + body && ("{" + body)[1..] == body;
    if j.members.NoMembers? {
      NothingPrinted();
      assert body == "}" + rest && body[1..] == rest;
    } else {
      MembersStart(j.members, "}" + rest);
      MembersRoundTrip(j.members, rest);
    }
  }

  lemma NothingPrinted()
    ensures PrintItems(NoItems) == "" && PrintMembers(NoMembers) == ""
  {
  }

  lemma ItemsStart(items: Items, rest: string)
    requires items.Item? && WellFormedItems(items)
    ensures var s := PrintItems(items) + rest; s != "" && !IsWs(s[0]) && s[0] != ']'
  {
    PrintStarts(items.head);
  }

  lemma MembersStart(ms: Members, rest: string)
    requires ms.Member?
    ensures var s := PrintMembers(ms) + rest; s != "" && s[0] == '"'
  {
  }

  lemma {:induction false} ItemsRoundTrip(items: Items, rest: string)
    requires items.Item? && WellFormedItems(items)
    ensures ReadItems(PrintItems(items) + ("]" + rest)) == Got(items, rest)
    decreases items
  {
    hide Print, ReadValue;
    var Item(head, tail) := items;
    var close := "]" + rest;
    if tail.NoItems? {
      ValueRoundTrip(head, close);
      assert close[1..] == rest;
    } else {
      var more := "," + (PrintItems(tail) + close);
      assert (Print(head) + ("," + PrintItems(tail))) + close == Print(head) + more;
      ValueRoundTrip(head, more);
      assert more[1..] == PrintItems(tail) + close;
      ItemsRoundTrip(tail, rest);
    }
  }

  lemma KeyRoundTrip(key: string, tail: string)
    requires tail != "" && !IsWs(tail[0])
    ensures ReadKey(Quote(key) + (":" + tail)) == Got(key, tail)
  {
    hide ReadString, Escape;
    QuotedRead(key, ":" + tail);
    assert (":" + tail)[1..] == tail;
  }

  lemma {:induction false} MembersRoundTrip(ms: Members, rest: string)
    requires ms.Member? && WellFormedMembers(ms)
    ensures ReadMembers(PrintMembers(ms) + ("}" + rest)) == Got(ms, rest)
    decreases ms
  {
    hide Print, ReadValue, Quote, ReadKey;
    var Member(key, value, others) := ms;
    var close := "}" + rest;
    PrintStarts(value);
    if others.NoMembers? {
      assert (Quote(key) + (":" + Print(value))) + close == Quote(key) + (":" + (Print(value) + close));
      KeyRoundTrip(key, Print(value) + close);
      ValueRoundTrip(value, close);
      assert close[1..] == rest;
    } else {
      var more := "," + (PrintMembers(others) + close);
      assert ((Quote(key) + (":" + Print(value))) + ("," + PrintMembers(others))) + close
          == Quote(key) + (":" + (Print(value) + more));
      KeyRoundTrip(key, Print(value) + more);
      ValueRoundTrip(value, more);
      assert more[1..] == PrintMembers(others) + close;
      MembersRoundTrip(others, rest);
    }
  }

  // ---- whatever is read can be printed --------------------------------------------------------------

  lemma {:induction false} NumberSpanIsNumber(s: string)
    ensures forall c :: c in s[..NumberSpan(s)] ==> IsNumberChar(c)
    decreases |s|
  {
    if s != "" && IsNumberChar(s[0]) {
      NumberSpanIsNumber(s[1..]);
      var n := NumberSpan(s[1..]);
      assert s[..1 + n] == [s[0]] + s[1..][..n];
    }
  }

  lemma {:induction false} ReadIsWellFormed(s: string)
    ensures ReadValue(s).Got? ==> WellFormed(ReadValue(s).value)
    decreases |s|, 0
  {
    hide ReadString, ReadItems, ReadMembers, ValidNumber, NumberSpan;
    var t := SkipWs(s);
    if t != "" {
      var u := SkipWs(t[1..]);
      NumberSpanIsNumber(t);
      ReadItemsAreWellFormed(u);
      ReadMembersAreWellFormed(u);
    }
  }

  lemma {:induction false} ReadItemsAreWellFormed(s: string)
    ensures ReadItems(s).Got? ==> WellFormedItems(ReadItems(s).value)
    decreases |s|, 1
  {
    hide ReadValue, WellFormed;
    ReadIsWellFormed(s);
    var r := ReadValue(s);
    if r.Got? {
      var u := SkipWs(r.rest);
      if u != "" {
        ReadItemsAreWellFormed(u[1..]);
      }
    }
  }

  lemma {:induction false} ReadMembersAreWellFormed(s: string)
    ensures ReadMembers(s).Got? ==> WellFormedMembers(ReadMembers(s).value)
    decreases |s|, 1
  {
    hide ReadValue, WellFormed, ReadKey;
    var k := ReadKey(s);
    if k.Got? {
      ReadIsWellFormed(k.rest);
      var r := ReadValue(k.rest);
      if r.Got? {
        var u := SkipWs(r.rest);
        if u != "" {
          ReadMembersAreWellFormed(u[1..]);
        }
      }
    }
  }
}
