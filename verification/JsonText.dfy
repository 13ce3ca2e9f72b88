/**
 The texts that are JSON: values written out with any white space between their tokens and any
 spelling of their strings (sections 2 to 7 of RFC 8259). The reader accepts exactly these, and
 reads each as what it means.
 */
module JsonText {
  import opened Json

  // ---- how a text is written ---------------------------------------------------------------------

  /** One character of a string: as itself, by a short escape, by four digits, or by a surrogate pair. */
  datatype Glyph =
    | Plain(c: char)
    | Short(letter: char, c: char)
    | Coded(digits: string, code: nat)
    | Pair(highDigits: string, high: nat, lowDigits: string, low: nat)

  datatype Sign = NoSign | Plus | Minus

  /** A number: sign, whole part, fraction and exponent; what is absent has no digits. */
  datatype Digits = Digits(negative: bool, whole: string, fraction: string, marker: char, sign: Sign, exponent: string)

  /** A value with the white space inside it; `gap` is what an empty array or object holds. */
  datatype Value =
    | VNull
    | VBool(b: bool)
    | VNumber(digits: Digits)
    | VString(glyphs: seq<Glyph>)
    | VArray(gap: string, elems: Elems)
    | VObject(gap: string, entries: Entries)

  datatype Elems = NoElems | Elem(before: string, value: Value, after: string, rest: Elems)

  datatype Entries =
    | NoEntries
    | Entry(before: string, key: seq<Glyph>, beforeColon: string, afterColon: string, value: Value, after: string,
            rest: Entries)

  // ---- its text --------------------------------------------------------------------------------------

  function GlyphText(g: Glyph): string {
    match g
    case Plain(c) => [c]
    case Short(letter, _) => ['\\', letter]
    case Coded(digits, _) => "\\u" + digits
    case Pair(high, _, low, _) => ("\\u" + high) + ("\\u" + low)
  }

  function GlyphsText(gs: seq<Glyph>): string {
    if gs == [] then "" else GlyphText(gs[0]) + GlyphsText(gs[1..])
  }

  function StringText(gs: seq<Glyph>): string { "\"" + (GlyphsText(gs) + "\"") }

  function ExponentText(d: Digits): string {
    if d.exponent == "" then ""
    else [d.marker] + ((match d.sign case NoSign => "" case Plus => "+" case Minus => "-") + d.exponent)
  }

  function DigitsText(d: Digits): string {
    (if d.negative then "-" else "")
    + (d.whole + ((if d.fraction == "" then "" else "." + d.fraction) + ExponentText(d)))
  }

  function ValueText(v: Value): string {
    match v
    case VNull => "null"
    case VBool(b) => if b then "true" else "false"
    case VNumber(d) => DigitsText(d)
    case VString(gs) => StringText(gs)
    case VArray(gap, elems) => "[" + ((if elems.NoElems? then gap else ElemsText(elems)) + "]")
    case VObject(gap, entries) => "{" + ((if entries.NoEntries? then gap else EntriesText(entries)) + "}")
  }

  function ElemsText(es: Elems): string {
    match es
    case NoElems => ""
    case Elem(before, v, after, rest) =>
      before + (ValueText(v) + (after + if rest.NoElems? then "" else "," + ElemsText(rest)))
  }

  function EntriesText(fs: Entries): string {
    match fs
    case NoEntries => ""
    case Entry(before, key, beforeColon, afterColon, v, after, rest) =>
      before + (StringText(key) + (beforeColon + (":" + (afterColon + (ValueText(v) + (after +
        if rest.NoEntries? then "" else "," + EntriesText(rest)))))))
  }

  // ---- its meaning -------------------------------------------------------------------------------------

  function GlyphMeaning(g: Glyph): char {
    match g
    case Plain(c) => c
    case Short(_, c) => c
    case Coded(_, code) => if code < 0xD800 || 0xE000 <= code < 0x10000 then code as char else '\U{FFFD}'
    case Pair(_, high, _, low) =>
      if 0xD800 <= high < 0xDC00 && 0xDC00 <= low < 0xE000
      then (0x10000 + (high - 0xD800) * 0x400 + (low - 0xDC00)) as char else '\U{FFFD}'
  }

  function GlyphsMeaning(gs: seq<Glyph>): string {
    if gs == [] then "" else [GlyphMeaning(gs[0])] + GlyphsMeaning(gs[1..])
  }

  function Meaning(v: Value): Json {
    match v
    case VNull => Null
    case VBool(b) => Bool(b)
    case VNumber(d) => Number(DigitsText(d))
    case VString(gs) => String(GlyphsMeaning(gs))
    case VArray(_, elems) => Array(ElemsMeaning(elems))
    case VObject(_, entries) => Object(EntriesMeaning(entries))
  }

  function ElemsMeaning(es: Elems): Items {
    match es
    case NoElems => NoItems
    case Elem(_, v, _, rest) => Item(Meaning(v), ElemsMeaning(rest))
  }

  function EntriesMeaning(fs: Entries): Members {
    match fs
    case NoEntries => NoMembers
    case Entry(_, key, _, _, v, _, rest) => Member(GlyphsMeaning(key), Meaning(v), EntriesMeaning(rest))
  }

  // ---- what is proper -------------------------------------------------------------------------------------

  ghost predicate Blank(w: string) { forall c :: c in w ==> c in [' ', '\t', '\n', '\r'] }

  predicate DigitIs(c: char, n: nat) { n < 16 && (c == "0123456789abcdef"[n] || c == "0123456789ABCDEF"[n]) }

  predicate CodeIs(digits: string, code: nat) {
    && code < 0x10000 && |digits| == 4
    && DigitIs(digits[0], code / 256 / 16) && DigitIs(digits[1], code / 256 % 16)
    && DigitIs(digits[2], code % 256 / 16) && DigitIs(digits[3], code % 256 % 16)
  }

  predicate GlyphOk(g: Glyph) {
    match g
    case Plain(c) => c >= ' ' && c != '"' && c != '\\'
    case Short(letter, c) =>
      (letter, c) in [('"', '"'), ('\\', '\\'), ('/', '/'), ('b', '\U{8}'), ('f', '\U{C}'),
                      ('n', '\n'), ('r', '\r'), ('t', '\t')]
    case Coded(digits, code) => CodeIs(digits, code)
    case Pair(highDigits, high, lowDigits, low) =>
      CodeIs(highDigits, high) && CodeIs(lowDigits, low) && 0xD800 <= high < 0xDC00 && 0xDC00 <= low < 0xE000
  }

  /** A high surrogate by itself: the low one must not come right behind it, or the two are a pair. */
  predicate Apart(g: Glyph, next: Glyph) {
    !(g.Coded? && 0xD800 <= g.code < 0xDC00 && next.Coded? && 0xDC00 <= next.code < 0xE000)
  }

  predicate GlyphsOk(gs: seq<Glyph>) {
    && (forall i :: 0 <= i < |gs| ==> GlyphOk(gs[i]))
    && (forall i :: 0 < i < |gs| ==> Apart(gs[i - 1], gs[i]))
  }

  ghost predicate AllDigits(s: string) { forall c :: c in s ==> '0' <= c <= '9' }

  /** No leading zero, and an exponent marked by e or E. */
  ghost predicate DigitsOk(d: Digits) {
    && AllDigits(d.whole) && AllDigits(d.fraction) && AllDigits(d.exponent)
    && d.whole != "" && (d.whole[0] == '0' ==> d.whole == "0")
    && (d.exponent != "" ==> d.marker == 'e' || d.marker == 'E')
  }

  ghost predicate Proper(v: Value) {
    match v
    case VNull => true
    case VBool(_) => true
    case VNumber(d) => DigitsOk(d)
    case VString(gs) => GlyphsOk(gs)
    case VArray(gap, elems) => Blank(gap) && ProperElems(elems)
    case VObject(gap, entries) => Blank(gap) && ProperEntries(entries)
  }

  ghost predicate ProperElems(es: Elems) {
    es.Elem? ==> Blank(es.before) && Proper(es.value) && Blank(es.after) && ProperElems(es.rest)
  }

  ghost predicate ProperEntries(fs: Entries) {
    fs.Entry? ==>
      && Blank(fs.before) && GlyphsOk(fs.key) && Blank(fs.beforeColon) && Blank(fs.afterColon)
      && Proper(fs.value) && Blank(fs.after) && ProperEntries(fs.rest)
  }

  // ---- white space ------------------------------------------------------------------------------------------

  lemma {:induction false} SkipBlank(w: string, s: string)
    requires Blank(w)
    ensures SkipWs(w + s) == SkipWs(s)
    decreases |w|
  {
    if w == "" {
      assert w + s == s;
    } else {
      assert w[0] in w && (w + s)[1..] == w[1..] + s;
      SkipBlank(w[1..], s);
    }
  }

  lemma {:induction false} SkipTwice(s: string)
    ensures SkipWs(SkipWs(s)) == SkipWs(s)
    decreases |s|
  {
    if s != "" && IsWs(s[0]) {
      SkipTwice(s[1..]);
    }
  }

  /** The reader looks at a text only behind its leading blanks. */
  lemma OnlyBehindBlanks(s: string, t: string)
    requires SkipWs(s) == SkipWs(t)
    ensures ReadValue(s) == ReadValue(t) && ReadKey(s) == ReadKey(t)
  {
    hide SkipWs, ReadString, ReadNumber, Literal, ReadItems, ReadMembers;
  }

  lemma ListsBehindBlanks(s: string, t: string)
    requires SkipWs(s) == SkipWs(t)
    ensures ReadItems(s) == ReadItems(t)
  {
    OnlyBehindBlanks(s, t);
    hide SkipWs, ReadValue;
  }

  lemma MembersBehindBlanks(s: string, t: string)
    requires SkipWs(s) == SkipWs(t)
    ensures ReadMembers(s) == ReadMembers(t)
  {
    OnlyBehindBlanks(s, t);
    hide SkipWs, ReadValue, ReadKey;
  }

  lemma BlankBefore(w: string, s: string)
    requires Blank(w)
    ensures ReadValue(w + s) == ReadValue(s) && ReadItems(w + s) == ReadItems(s)
    ensures ReadKey(w + s) == ReadKey(s) && ReadMembers(w + s) == ReadMembers(s)
  {
    hide SkipWs, ReadValue, ReadItems, ReadKey, ReadMembers;
    SkipBlank(w, s);
    OnlyBehindBlanks(w + s, s);
    ListsBehindBlanks(w + s, s);
    MembersBehindBlanks(w + s, s);
  }

  lemma SkippedBefore(s: string)
    ensures ReadItems(SkipWs(s)) == ReadItems(s) && ReadMembers(SkipWs(s)) == ReadMembers(s)
  {
    hide SkipWs, ReadValue, ReadItems, ReadKey, ReadMembers;
    SkipTwice(s);
    ListsBehindBlanks(SkipWs(s), s);
    MembersBehindBlanks(SkipWs(s), s);
  }

  // ---- strings ------------------------------------------------------------------------------------------------

  lemma DigitReads(c: char, n: nat)
    requires DigitIs(c, n)
    ensures HexValue(c) == n
  {
  }

  lemma CodeReads(digits: string, code: nat, rest: string)
    requires CodeIs(digits, code)
    ensures ReadHex4(digits + rest) == code
  {
    hide DigitIs, HexValue;
    DigitReads(digits[0], code / 256 / 16);
    DigitReads(digits[1], code / 256 % 16);
    DigitReads(digits[2], code % 256 / 16);
    DigitReads(digits[3], code % 256 % 16);
  }

  /** What follows a lone high surrogate is not the escape of a low one. */
  predicate NoLowNext(tail: string) {
    !(|tail| >= 2 && tail[0] == '\\' && tail[1] == 'u' && 0xDC00 <= ReadHex4(tail[2..]) < 0xE000)
  }

  lemma CodedReads(digits: string, code: nat, tail: string)
    requires CodeIs(digits, code) && (0xD800 <= code < 0xDC00 ==> NoLowNext(tail))
    ensures ReadString(("\\u" + digits) + tail) == Cons(GlyphMeaning(Coded(digits, code)), ReadString(tail))
  {
    hide ReadHex4, CodeIs, SimpleEscape;
    assert |digits| == 4 by { FourDigits(digits, code); }
    var s := ("\\u" + digits) + tail;
    assert s[2..] == digits + tail && s[6..] == tail;
    CodeReads(digits, code, tail);
    assert |s| >= 8 ==> s[6] == tail[0] && s[7] == tail[1] && s[8..] == tail[2..];
    assert UnicodeEscape(s) == Got(GlyphMeaning(Coded(digits, code)), tail);
  }

  lemma FourDigits(digits: string, code: nat)
    requires CodeIs(digits, code)
    ensures |digits| == 4 && code < 0x10000
  {
  }

  lemma PairReads(g: Glyph, tail: string)
    requires g.Pair? && GlyphOk(g)
    ensures ReadString(GlyphText(g) + tail) == Cons(GlyphMeaning(g), ReadString(tail))
  {
    hide ReadHex4, CodeIs, SimpleEscape;
    FourDigits(g.highDigits, g.high);
    FourDigits(g.lowDigits, g.low);
    var s := GlyphText(g) + tail;
    assert s[2..] == g.highDigits + (("\\u" + g.lowDigits) + tail);
    assert s[6] == '\\' && s[7] == 'u' && s[8..] == g.lowDigits + tail && s[12..] == tail;
    CodeReads(g.highDigits, g.high, ("\\u" + g.lowDigits) + tail);
    CodeReads(g.lowDigits, g.low, tail);
    assert UnicodeEscape(s) == Got(GlyphMeaning(g), tail);
  }

  lemma GlyphReads(g: Glyph, tail: string)
    requires GlyphOk(g) && (g.Coded? && 0xD800 <= g.code < 0xDC00 ==> NoLowNext(tail))
    ensures ReadString(GlyphText(g) + tail) == Cons(GlyphMeaning(g), ReadString(tail))
  {
    hide CodeIs, ReadHex4, UnicodeEscape, Cons;
    match g
    case Plain(c) => PlainReads(c, tail);
    case Short(letter, c) => SimpleCharRoundTrip(c, letter, tail);
    case Coded(digits, code) => CodedReads(digits, code, tail);
    case Pair(_, _, _, _) => PairReads(g, tail);
  }

  lemma PlainReads(c: char, tail: string)
    requires c >= ' ' && c != '"' && c != '\\'
    ensures ReadString([c] + tail) == Cons(c, ReadString(tail))
  {
    assert ([c] + tail)[1..] == tail;
  }

  /** Behind a glyph comes the next glyph or the closing quote. */
  lemma NothingLow(g: Glyph, gs: seq<Glyph>, rest: string)
    requires GlyphsOk([g] + gs) && g.Coded? && 0xD800 <= g.code < 0xDC00
    ensures NoLowNext(GlyphsText(gs) + ("\"" + rest))
  {
    hide CodeIs, ReadHex4;
    var all := [g] + gs;
    if gs != [] {
      var next, more := gs[0], GlyphsText(gs[1..]) + ("\"" + rest);
      assert all[1] == next && GlyphOk(all[1]) && Apart(all[0], all[1]);
      assert GlyphsText(gs) + ("\"" + rest) == GlyphText(next) + more;
      LowNext(next, more);
    }
  }

  lemma LowNext(next: Glyph, more: string)
    requires GlyphOk(next) && !(next.Coded? && 0xDC00 <= next.code < 0xE000)
    ensures NoLowNext(GlyphText(next) + more)
  {
    hide CodeIs, ReadHex4;
    var s := GlyphText(next) + more;
    if next.Coded? {
      assert s[2..] == next.digits + more;
      CodeReads(next.digits, next.code, more);
    } else if next.Pair? {
      assert s[2..] == next.highDigits + (("\\u" + next.lowDigits) + more);
      CodeReads(next.highDigits, next.high, ("\\u" + next.lowDigits) + more);
    }
  }

  lemma {:induction false} GlyphsRead(gs: seq<Glyph>, rest: string)
    requires GlyphsOk(gs)
    ensures ReadString(GlyphsText(gs) + ("\"" + rest)) == Got(GlyphsMeaning(gs), rest)
    decreases |gs|
  {
    hide GlyphOk, Apart, NoLowNext, GlyphText, GlyphMeaning;
    if gs == [] {
      assert "" + ("\"" + rest) == "\"" + rest;
    } else {
      var tail := GlyphsText(gs[1..]) + ("\"" + rest);
      assert gs == [gs[0]] + gs[1..];
      TailOk(gs);
      assert GlyphsText(gs) + ("\"" + rest) == GlyphText(gs[0]) + tail;
      if gs[0].Coded? && 0xD800 <= gs[0].code < 0xDC00 {
        NothingLow(gs[0], gs[1..], rest);
      }
      GlyphReads(gs[0], tail);
      GlyphsRead(gs[1..], rest);
    }
  }

  lemma TailOk(gs: seq<Glyph>)
    requires GlyphsOk(gs) && gs != []
    ensures GlyphsOk(gs[1..]) && GlyphOk(gs[0])
  {
    hide GlyphOk, Apart;
    var tail := gs[1..];
    forall i | 0 <= i < |tail|
      ensures GlyphOk(tail[i])
    {
      assert tail[i] == gs[i + 1];
    }
    forall i | 0 < i < |tail|
      ensures Apart(tail[i - 1], tail[i])
    {
      assert tail[i - 1] == gs[i] && tail[i] == gs[i + 1];
      assert Apart(gs[i + 1 - 1], gs[i + 1]);
    }
  }

  lemma StringReads(gs: seq<Glyph>, rest: string)
    requires GlyphsOk(gs)
    ensures StringText(gs) + rest == "\"" + (GlyphsText(gs) + ("\"" + rest))
    ensures ReadString((StringText(gs) + rest)[1..]) == Got(GlyphsMeaning(gs), rest)
  {
    hide GlyphsOk, GlyphsText;
    var t := GlyphsText(gs) + ("\"" + rest);
    assert StringText(gs) + rest == "\"" + t && ("\"" + t)[1..] == t;
    GlyphsRead(gs, rest);
  }

  // ---- numbers ------------------------------------------------------------------------------------------------

  lemma {:induction false} SkipDigitsIs(a: string, b: string)
    requires AllDigits(a) && (b == "" || !IsDigit(b[0]))
    ensures SkipDigits(a + b) == b
    decreases |a|
  {
    if a == "" {
      assert a + b == b;
    } else {
      assert a[0] in a && (a + b)[1..] == a[1..] + b;
      assert forall c :: c in a[1..] ==> c in a;
      SkipDigitsIs(a[1..], b);
    }
  }

  lemma ExponentReads(d: Digits)
    requires DigitsOk(d)
    ensures ValidExponent(ExponentText(d))
    ensures ExponentText(d) != "" ==> !IsDigit(ExponentText(d)[0]) && ExponentText(d)[0] != '.'
    ensures forall c :: c in ExponentText(d) ==> IsNumberChar(c)
  {
    if d.exponent != "" {
      var s := ExponentText(d);
      assert d.exponent[0] in d.exponent;
      assert d.exponent + "" == d.exponent;
      SkipDigitsIs(d.exponent, "");
      if d.sign.NoSign? {
        assert s[1..] == d.exponent;
      } else {
        assert s[2..] == d.exponent;
      }
    }
  }

  lemma FractionReads(d: Digits)
    requires DigitsOk(d)
    ensures var f := (if d.fraction == "" then "" else "." + d.fraction) + ExponentText(d);
            && ValidFraction(f) && (f == "" || !IsDigit(f[0])) && forall c :: c in f ==> IsNumberChar(c)
  {
    hide ExponentText, ValidExponent;
    ExponentReads(d);
    var e := ExponentText(d);
    if d.fraction == "" {
      assert "" + e == e;
    } else {
      var f := ("." + d.fraction) + e;
      assert f[1..] == d.fraction + e && d.fraction[0] in d.fraction;
      SkipDigitsIs(d.fraction, e);
    }
  }

  /** A proper number is one the reader takes. */
  lemma NumberReads(d: Digits)
    requires DigitsOk(d)
    ensures WellFormed(Number(DigitsText(d)))
  {
    hide ExponentText, ValidFraction;
    FractionReads(d);
    var f := (if d.fraction == "" then "" else "." + d.fraction) + ExponentText(d);
    WholeReads(d.whole, f);
    var t := d.whole + f;
    assert DigitsText(d) == (if d.negative then "-" else "") + t;
    assert d.negative ==> DigitsText(d)[1..] == t;
    assert !d.negative ==> "" + t == t;
  }

  lemma WholeReads(whole: string, f: string)
    requires AllDigits(whole) && whole != "" && (whole[0] == '0' ==> whole == "0") && (f == "" || !IsDigit(f[0]))
    ensures var t := whole + f;
            t != "" && IsDigit(t[0]) && t[0] != '-' && (if t[0] == '0' then t[1..] else SkipDigits(t)) == f
  {
    assert whole[0] in whole;
    SkipDigitsIs(whole, f);
    assert whole == "0" ==> (whole + f)[1..] == f;
  }

  // ---- what the reader does at a bracket --------------------------------------------------------------------------

  function AsObject(r: Read<Members>): Read<Json> { if r.Got? then Got(Object(r.value), r.rest) else Bad }

  function AsArray(r: Read<Items>): Read<Json> { if r.Got? then Got(Array(r.value), r.rest) else Bad }

  lemma AtBrace(body: string)
    ensures var u := SkipWs(body);
            ReadValue("{" + body)
            == if u != "" && u[0] == '}' then Got(Object(NoMembers), u[1..]) else AsObject(ReadMembers(u))
  {
    hide ReadMembers, ReadItems, ReadString, ReadNumber, Literal;
    assert ("{" + body)[1..] == body;
  }

  lemma AtBracket(body: string)
    ensures var u := SkipWs(body);
            ReadValue("[" + body)
            == if u != "" && u[0] == ']' then Got(Array(NoItems), u[1..]) else AsArray(ReadItems(u))
  {
    hide ReadMembers, ReadItems, ReadString, ReadNumber, Literal;
    assert ("[" + body)[1..] == body;
  }

  // ---- values ---------------------------------------------------------------------------------------------------

  lemma ValueStarts(v: Value)
    requires Proper(v)
    ensures ValueText(v) != "" && !IsWs(ValueText(v)[0]) && ValueText(v)[0] !in "]}"
  {
    hide DigitsText, GlyphsText, ElemsText, EntriesText;
    if v.VNumber? {
      NumberReads(v.digits);
      NumberStarts(DigitsText(v.digits));
    }
  }

  lemma AfterValue(after: string, more: string)
    requires Blank(after) && more != "" && more[0] in ",]}"
    ensures Delimited(after + more) && SkipWs(after + more) == more
  {
    SkipBlank(after, more);
    assert after != "" ==> after[0] in after;
  }

  /** Every proper text is read as what it means, whatever follows it. */
  lemma {:induction false} SpelledReads(v: Value, rest: string)
    requires Proper(v) && Delimited(rest)
    ensures ReadValue(ValueText(v) + rest) == Got(Meaning(v), rest)
    decreases v, 1
  {
    hide ReadString, ReadMembers, ReadItems, GlyphsText, ElemsText, EntriesText, ReadNumber, Literal, DigitsText;
    hide Delimited;
    match v
    case VNull => LeafRoundTrip(Null, rest);
    case VBool(b) => LeafRoundTrip(Bool(b), rest);
    case VNumber(d) =>
      NumberReads(d);
      LeafRoundTrip(Number(DigitsText(d)), rest);
    case VString(gs) => StringReads(gs, rest);
    case VArray(_, _) => ArrayReads(v, rest);
    case VObject(_, _) => ObjectReads(v, rest);
  }

  lemma {:induction false} ArrayReads(v: Value, rest: string)
    requires v.VArray? && Proper(v)
    ensures ReadValue(ValueText(v) + rest) == Got(Meaning(v), rest)
    decreases v, 0
  {
    hide ReadValue, ReadItems, ElemsText;
    var inner := if v.elems.NoElems? then v.gap else ElemsText(v.elems);
    var body := inner + ("]" + rest);
    assert ValueText(v) + rest == "[" + body;
    AtBracket(body);
    if v.elems.NoElems? {
      SkipBlank(v.gap, "]" + rest);
      assert ("]" + rest)[1..] == rest;
    } else {
      ElemsStart(v.elems, "]" + rest);
      SkippedBefore(body);
      ElemsRead(v.elems, rest);
    }
  }

  lemma {:induction false} ObjectReads(v: Value, rest: string)
    requires v.VObject? && Proper(v)
    ensures ReadValue(ValueText(v) + rest) == Got(Meaning(v), rest)
    decreases v, 0
  {
    hide ReadValue, ReadMembers, EntriesText;
    var inner := if v.entries.NoEntries? then v.gap else EntriesText(v.entries);
    var body := inner + ("}" + rest);
    assert ValueText(v) + rest == "{" + body;
    AtBrace(body);
    if v.entries.NoEntries? {
      SkipBlank(v.gap, "}" + rest);
      assert ("}" + rest)[1..] == rest;
    } else {
      EntriesStart(v.entries, "}" + rest);
      SkippedBefore(body);
      EntriesRead(v.entries, rest);
    }
  }

  lemma ElemsStart(es: Elems, rest: string)
    requires es.Elem? && ProperElems(es)
    ensures var u := SkipWs(ElemsText(es) + rest); u != "" && u[0] != ']'
  {
    hide ValueText;
    ValueStarts(es.value);
    var tail := es.after + if es.rest.NoElems? then "" else "," + ElemsText(es.rest);
    var t := ValueText(es.value) + (tail + rest);
    assert ElemsText(es) + rest == es.before + t;
    SkipBlank(es.before, t);
  }

  lemma EntriesStart(fs: Entries, rest: string)
    requires fs.Entry? && ProperEntries(fs)
    ensures var u := SkipWs(EntriesText(fs) + rest); u != "" && u[0] == '"'
  {
    hide GlyphsText, ValueText;
    var t := EntriesText(fs)[|fs.before|..] + rest;
    assert EntriesText(fs) + rest == fs.before + t && t[0] == '"';
    SkipBlank(fs.before, t);
  }

  lemma {:induction false} ElemsRead(es: Elems, rest: string)
    requires es.Elem? && ProperElems(es)
    ensures ReadItems(ElemsText(es) + ("]" + rest)) == Got(ElemsMeaning(es), rest)
    decreases es
  {
    hide ValueText, ReadValue, SkipWs, Meaning, Delimited;
    var close := "]" + rest;
    var more := if es.rest.NoElems? then close else "," + (ElemsText(es.rest) + close);
    var t := ValueText(es.value) + (es.after + more);
    assert ElemsText(es) + close == es.before + t;
    BlankBefore(es.before, t);
    AfterValue(es.after, more);
    SpelledReads(es.value, es.after + more);
    if es.rest.NoElems? {
      assert close[1..] == rest;
    } else {
      assert more[1..] == ElemsText(es.rest) + close;
      ElemsRead(es.rest, rest);
    }
  }

  /** A key, its colon and the blanks around them. */
  lemma KeyReads(key: seq<Glyph>, beforeColon: string, afterColon: string, tail: string)
    requires GlyphsOk(key) && Blank(beforeColon) && Blank(afterColon) && tail != "" && !IsWs(tail[0])
    ensures ReadKey(StringText(key) + (beforeColon + (":" + (afterColon + tail)))) == Got(GlyphsMeaning(key), tail)
  {
    hide ReadString, GlyphsText, GlyphsOk, GlyphsMeaning;
    var v := ":" + (afterColon + tail);
    StringReads(key, beforeColon + v);
    SkipBlank(beforeColon, v);
    assert v[1..] == afterColon + tail;
    SkipBlank(afterColon, tail);
  }

  /** What comes behind a member and its blanks. */
  function Behind(fs: Entries, close: string): string {
    if fs.NoEntries? then close else "," + (EntriesText(fs) + close)
  }

  lemma EntryShape(fs: Entries, close: string)
    requires fs.Entry?
    ensures EntriesText(fs) + close
         == fs.before + (StringText(fs.key) + (fs.beforeColon + (":" + (fs.afterColon
            + (ValueText(fs.value) + (fs.after + Behind(fs.rest, close)))))))
  {
    hide StringText, ValueText;
    var x := if fs.rest.NoEntries? then "" else "," + EntriesText(fs.rest);
    assert x + close == Behind(fs.rest, close);
  }

  lemma {:induction false} EntriesRead(fs: Entries, rest: string)
    requires fs.Entry? && ProperEntries(fs)
    ensures ReadMembers(EntriesText(fs) + ("}" + rest)) == Got(EntriesMeaning(fs), rest)
    decreases fs
  {
    hide ValueText, ReadValue, SkipWs, Meaning, Delimited, ReadKey, StringText, EntriesText;
    var close := "}" + rest;
    var more := Behind(fs.rest, close);
    var value := ValueText(fs.value) + (fs.after + more);
    var t := StringText(fs.key) + (fs.beforeColon + (":" + (fs.afterColon + value)));
    EntryShape(fs, close);
    BlankBefore(fs.before, t);
    ValueStarts(fs.value);
    KeyReads(fs.key, fs.beforeColon, fs.afterColon, value);
    AfterValue(fs.after, more);
    SpelledReads(fs.value, fs.after + more);
    if fs.rest.NoEntries? {
      assert close[1..] == rest;
    } else {
      assert more[1..] == EntriesText(fs.rest) + close;
      EntriesRead(fs.rest, rest);
    }
  }

  // ---- and nothing else is read ------------------------------------------------------------------------------------

  lemma {:induction false} BlankSplit(s: string) returns (w: string)
    ensures Blank(w) && s == w + SkipWs(s) && (SkipWs(s) == "" || !IsWs(SkipWs(s)[0]))
    decreases |s|
  {
    w := "";
    if s != "" && IsWs(s[0]) {
      var more := BlankSplit(s[1..]);
      w := [s[0]] + more;
    }
  }

  lemma DigitIsRead(c: char)
    requires HexValue(c) >= 0
    ensures DigitIs(c, HexValue(c))
  {
  }

  lemma CodeIsRead(s: string)
    requires ReadHex4(s) >= 0
    ensures |s| >= 4 && CodeIs(s[..4], ReadHex4(s))
  {
    hide DigitIs, HexValue;
    var a, b, c, d := HexValue(s[0]), HexValue(s[1]), HexValue(s[2]), HexValue(s[3]);
    DigitIsRead(s[0]);
    DigitIsRead(s[1]);
    DigitIsRead(s[2]);
    DigitIsRead(s[3]);
    DigitBound(s[0], a);
    DigitBound(s[1], b);
    DigitBound(s[2], c);
    DigitBound(s[3], d);
    FourParts(a, b, c, d);
  }

  lemma FourParts(a: nat, b: nat, c: nat, d: nat)
    requires a < 16 && b < 16 && c < 16 && d < 16
    ensures var v := (a * 16 + b) * 256 + (c * 16 + d);
            && v < 0x10000 && v / 256 / 16 == a && v / 256 % 16 == b && v % 256 / 16 == c && v % 256 % 16 == d
  {
    var v := (a * 16 + b) * 256 + (c * 16 + d);
    assert v / 256 == a * 16 + b && v % 256 == c * 16 + d;
  }

  lemma DigitBound(c: char, n: nat)
    requires DigitIs(c, n)
    ensures n < 16
  {
  }

  /** One \u escape, or two that make a pair, as a glyph. */
  lemma EscapeIsSpelled(s: string) returns (g: Glyph)
    requires |s| >= 2 && s[0] == '\\' && s[1] == 'u' && UnicodeEscape(s).Got?
    ensures GlyphOk(g) && (g.Coded? || g.Pair?) && s == GlyphText(g) + UnicodeEscape(s).rest
    ensures GlyphMeaning(g) == UnicodeEscape(s).value
    ensures g.Coded? && 0xD800 <= g.code < 0xDC00 ==> NoLowNext(UnicodeEscape(s).rest)
  {
    hide ReadHex4, CodeIs;
    var v := ReadHex4(s[2..]);
    CodeIsRead(s[2..]);
    FourDigits(s[2..][..4], v);
    assert s[2..][..4] == s[2..6];
    var low := if |s| >= 8 && s[6] == '\\' && s[7] == 'u' then ReadHex4(s[8..]) else -1;
    if 0xD800 <= v < 0xDC00 && 0xDC00 <= low < 0xE000 {
      CodeIsRead(s[8..]);
      assert s[8..][..4] == s[8..12];
      g := Pair(s[2..6], v, s[8..12], low);
      assert s == ("\\u" + s[2..6]) + ("\\u" + s[8..12]) + s[12..];
    } else {
      g := Coded(s[2..6], v);
      assert s == ("\\u" + s[2..6]) + s[6..];
      assert |s[6..]| >= 2 ==> s[6..][0] == s[6] && s[6..][1] == s[7] && s[6..][2..] == s[8..];
    }
  }

  lemma JoinGlyph(g: Glyph, gs: seq<Glyph>, rest: string)
    requires GlyphOk(g) && GlyphsOk(gs)
    requires g.Coded? && 0xD800 <= g.code < 0xDC00 ==> NoLowNext(GlyphsText(gs) + ("\"" + rest))
    ensures GlyphsOk([g] + gs)
    ensures GlyphsText([g] + gs) + ("\"" + rest) == GlyphText(g) + (GlyphsText(gs) + ("\"" + rest))
    ensures GlyphsMeaning([g] + gs) == [GlyphMeaning(g)] + GlyphsMeaning(gs)
  {
    hide GlyphOk, NoLowNext, GlyphMeaning, GlyphText, Apart, GlyphsOk;
    assert ([g] + gs)[1..] == gs;
    Join3(GlyphText(g), GlyphsText(gs), "\"" + rest);
    if gs != [] {
      ApartFrom(g, gs, rest);
    }
    AllApart(g, gs);
  }

  lemma Join3(a: string, b: string, c: string)
    ensures (a + b) + c == a + (b + c)
  {
  }

  lemma ApartFrom(g: Glyph, gs: seq<Glyph>, rest: string)
    requires GlyphsOk(gs) && gs != []
    requires g.Coded? && 0xD800 <= g.code < 0xDC00 ==> NoLowNext(GlyphsText(gs) + ("\"" + rest))
    ensures Apart(g, gs[0])
  {
    hide CodeIs, ReadHex4;
    if gs[0].Coded? {
      var more := GlyphsText(gs[1..]) + ("\"" + rest);
      var s := GlyphText(gs[0]) + more;
      Join3(GlyphText(gs[0]), GlyphsText(gs[1..]), "\"" + rest);
      FourDigits(gs[0].digits, gs[0].code);
      assert s[0] == '\\' && s[1] == 'u' && s[2..] == gs[0].digits + more;
      CodeReads(gs[0].digits, gs[0].code, more);
    }
  }

  lemma AllApart(g: Glyph, gs: seq<Glyph>)
    requires GlyphOk(g) && GlyphsOk(gs) && (gs != [] ==> Apart(g, gs[0]))
    ensures GlyphsOk([g] + gs)
  {
    hide GlyphOk, Apart;
    var all := [g] + gs;
    forall i | 0 <= i < |all|
      ensures GlyphOk(all[i])
    {
      assert i > 0 ==> all[i] == gs[i - 1];
    }
    forall i | 0 < i < |all|
      ensures Apart(all[i - 1], all[i])
    {
      assert all[i] == gs[i - 1];
      if i > 1 {
        assert all[i - 1] == gs[i - 2] && Apart(gs[i - 1 - 1], gs[i - 1]);
      }
    }
  }

  lemma {:induction false} StringIsSpelled(s: string) returns (gs: seq<Glyph>)
    requires ReadString(s).Got?
    ensures GlyphsOk(gs) && s == GlyphsText(gs) + ("\"" + ReadString(s).rest)
    ensures GlyphsMeaning(gs) == ReadString(s).value
    decreases |s|
  {
    hide GlyphsOk, UnicodeEscape, NoLowNext, CodeIs;
    var rest := ReadString(s).rest;
    if s[0] == '"' {
      gs := [];
      assert GlyphsOk([]) by { NoGlyphs(); }
      assert s == "\"" + s[1..] && "" + s == s;
    } else if s[0] != '\\' {
      var more := StringIsSpelled(s[1..]);
      JoinGlyph(Plain(s[0]), more, rest);
      assert s == [s[0]] + s[1..];
      gs := [Plain(s[0])] + more;
    } else if s[1] == 'u' {
      var g := EscapeIsSpelled(s);
      var t := UnicodeEscape(s).rest;
      var more := StringIsSpelled(t);
      JoinGlyph(g, more, rest);
      gs := [g] + more;
    } else {
      var more := StringIsSpelled(s[2..]);
      var g := Short(s[1], SimpleEscape(s[1])[0]);
      assert s == ['\\', s[1]] + s[2..];
      JoinGlyph(g, more, rest);
      gs := [g] + more;
    }
  }

  lemma NoGlyphs()
    ensures GlyphsOk([])
  {
  }

  lemma {:induction false} DigitSplit(s: string) returns (a: string)
    ensures AllDigits(a) && s == a + SkipDigits(s) && (SkipDigits(s) == "" || !IsDigit(SkipDigits(s)[0]))
    ensures s != "" && IsDigit(s[0]) ==> a != ""
    decreases |s|
  {
    a := "";
    if s != "" && IsDigit(s[0]) {
      var more := DigitSplit(s[1..]);
      a := [s[0]] + more;
    }
  }

  lemma ExponentIsSpelled(s: string, d: Digits) returns (e: Digits)
    requires ValidExponent(s) && DigitsOk(d) && d.exponent == ""
    ensures DigitsOk(e) && ExponentText(e) == s
    ensures e.negative == d.negative && e.whole == d.whole && e.fraction == d.fraction
  {
    e := d;
    if s != "" {
      var signed := |s| > 1 && s[1] in "+-";
      var t := if signed then s[2..] else s[1..];
      var digits := DigitSplit(t);
      assert digits + "" == digits && t == digits;
      e := d.(marker := s[0], sign := if !signed then NoSign else if s[1] == '+' then Plus else Minus, exponent := t);
      assert signed ==> s == [s[0]] + ([s[1]] + t);
      assert !signed ==> s == [s[0]] + ("" + t);
    }
  }

  lemma FractionIsSpelled(s: string, d: Digits) returns (e: Digits)
    requires ValidFraction(s) && DigitsOk(d) && d.exponent == "" && d.fraction == ""
    ensures DigitsOk(e) && (if e.fraction == "" then "" else "." + e.fraction) + ExponentText(e) == s
    ensures e.negative == d.negative && e.whole == d.whole
  {
    hide ValidExponent, ExponentText;
    if s != "" && s[0] == '.' {
      var digits := DigitSplit(s[1..]);
      var t := SkipDigits(s[1..]);
      e := ExponentIsSpelled(t, d.(fraction := digits));
      assert s == "." + s[1..] && s == ("." + digits) + t;
    } else {
      e := ExponentIsSpelled(s, d);
      assert "" + s == s;
    }
  }

  /** Every number the reader takes is a proper one. */
  lemma NumberIsSpelled(s: string) returns (d: Digits)
    requires ValidNumber(s)
    ensures DigitsOk(d) && DigitsText(d) == s
  {
    hide ValidFraction, ExponentText, SkipDigits;
    var negative := s[0] == '-';
    var t := if negative then s[1..] else s;
    var whole, f := WholeSplit(t);
    d := FractionIsSpelled(f, Digits(negative, whole, "", 'e', NoSign, ""));
    assert s == (if negative then "-" else "") + t;
  }

  lemma WholeSplit(t: string) returns (whole: string, f: string)
    requires t != "" && IsDigit(t[0]) && ValidFraction(if t[0] == '0' then t[1..] else SkipDigits(t))
    ensures AllDigits(whole) && whole != "" && (whole[0] == '0' ==> whole == "0")
    ensures t == whole + f && ValidFraction(f)
  {
    hide ValidFraction;
    var digits := DigitSplit(t);
    if t[0] == '0' {
      whole, f := "0", t[1..];
    } else {
      whole, f := digits, SkipDigits(t);
    }
  }

  /** The words and numbers. */
  lemma LeafIsSpelled(t: string) returns (v: Value)
    requires t != "" && !IsWs(t[0]) && t[0] !in "\"{[" && ReadValue(t).Got?
    ensures Proper(v) && t == ValueText(v) + ReadValue(t).rest && Meaning(v) == ReadValue(t).value
  {
    hide ReadString, ReadItems, ReadMembers, DigitsText, DigitsOk, ValidNumber, NumberSpan;
    var rest := ReadValue(t).rest;
    if t[0] in "ntf" {
      v := if t[0] == 'n' then VNull else VBool(t[0] == 't');
      assert t == t[..|t| - |rest|] + rest;
    } else {
      var n := NumberSpan(t);
      var d := NumberIsSpelled(t[..n]);
      v := VNumber(d);
      assert t == t[..n] + t[n..];
    }
  }

  lemma StringValueIsSpelled(t: string) returns (v: Value)
    requires t != "" && t[0] == '"' && ReadValue(t).Got?
    ensures Proper(v) && t == ValueText(v) + ReadValue(t).rest && Meaning(v) == ReadValue(t).value
  {
    hide ReadString, ReadItems, ReadMembers, GlyphsText, GlyphsOk, GlyphsMeaning;
    var gs := StringIsSpelled(t[1..]);
    v := VString(gs);
    KeyGather("", GlyphsText(gs), ReadValue(t).rest);
    assert t == "\"" + t[1..];
  }

  /** A text that is read is a proper one with blanks before it, and means what was read. */
  lemma {:induction false} ReadIsSpelled(s: string) returns (w: string, v: Value)
    requires ReadValue(s).Got?
    ensures Blank(w) && Proper(v) && s == w + (ValueText(v) + ReadValue(s).rest) && Meaning(v) == ReadValue(s).value
    decreases |s|, 2
  {
    w := BlankSplit(s);
    var t := SkipWs(s);
    SkipTwice(s);
    OnlyBehindBlanks(t, s);
    assert t != "" by { NothingToRead(s); }
    hide ReadValue, ValueText, Meaning, Proper, SkipWs;
    if t[0] == '"' {
      v := StringValueIsSpelled(t);
    } else if t[0] == '{' {
      v := ObjectIsSpelled(t);
    } else if t[0] == '[' {
      v := ArrayIsSpelled(t);
    } else {
      v := LeafIsSpelled(t);
    }
  }

  lemma NothingToRead(s: string)
    requires ReadValue(s).Got?
    ensures SkipWs(s) != ""
  {
  }

  lemma {:induction false} ArrayIsSpelled(t: string) returns (v: Value)
    requires t != "" && t[0] == '[' && ReadValue(t).Got?
    ensures Proper(v) && t == ValueText(v) + ReadValue(t).rest && Meaning(v) == ReadValue(t).value
    decreases |t|, 1
  {
    hide ReadValue, ReadItems, ElemsText, SkipWs;
    var rest := ReadValue(t).rest;
    var gap := BlankSplit(t[1..]);
    var u := SkipWs(t[1..]);
    assert t == "[" + t[1..];
    AtBracket(t[1..]);
    assert u != "" by { NoItemsRead(); }
    if u[0] == ']' {
      v := VArray(gap, NoElems);
      assert u == "]" + rest;
      Enclosed("[", gap, "", "]", rest);
    } else {
      var es := ItemsAreSpelled(u);
      BlankJoin(gap, es.before);
      ElemsPrepend(gap, es);
      v := VArray("", es.(before := gap + es.before));
      Enclosed("[", gap, ElemsText(es), "]", rest);
    }
  }

  lemma NoItemsRead()
    ensures ReadItems("") == Bad && ReadMembers("") == Bad
  {
  }

  lemma Enclosed(open: string, gap: string, inner: string, close: string, rest: string)
    ensures open + (gap + (inner + (close + rest))) == (open + ((gap + inner) + close)) + rest
    ensures inner == "" ==> open + (gap + (close + rest)) == (open + (gap + close)) + rest
  {
    assert gap + (inner + (close + rest)) == ((gap + inner) + close) + rest;
    assert gap + (close + rest) == (gap + close) + rest;
  }

  lemma BlankJoin(a: string, b: string)
    requires Blank(a) && Blank(b)
    ensures Blank(a + b) && Blank("")
  {
  }

  lemma ElemsPrepend(gap: string, es: Elems)
    requires es.Elem?
    ensures ElemsText(es.(before := gap + es.before)) == gap + ElemsText(es)
    ensures ElemsMeaning(es.(before := gap + es.before)) == ElemsMeaning(es)
  {
    hide ValueText;
  }

  lemma EntriesPrepend(gap: string, fs: Entries)
    requires fs.Entry?
    ensures EntriesText(fs.(before := gap + fs.before)) == gap + EntriesText(fs)
    ensures EntriesMeaning(fs.(before := gap + fs.before)) == EntriesMeaning(fs)
  {
    hide ValueText, StringText;
  }

  lemma {:induction false} ObjectIsSpelled(t: string) returns (v: Value)
    requires t != "" && t[0] == '{' && ReadValue(t).Got?
    ensures Proper(v) && v.VObject? && t == ValueText(v) + ReadValue(t).rest && Meaning(v) == ReadValue(t).value
    decreases |t|, 1
  {
    hide ReadValue, ReadMembers, EntriesText, SkipWs;
    var rest := ReadValue(t).rest;
    var gap := BlankSplit(t[1..]);
    var u := SkipWs(t[1..]);
    assert t == "{" + t[1..];
    AtBrace(t[1..]);
    assert u != "" by { NoItemsRead(); }
    if u[0] == '}' {
      v := VObject(gap, NoEntries);
      assert u == "}" + rest;
      Enclosed("{", gap, "", "}", rest);
    } else {
      var fs := MembersAreSpelled(u);
      BlankJoin(gap, fs.before);
      EntriesPrepend(gap, fs);
      v := VObject("", fs.(before := gap + fs.before));
      Enclosed("{", gap, EntriesText(fs), "}", rest);
    }
  }

  lemma {:induction false} ItemsAreSpelled(s: string) returns (es: Elems)
    requires ReadItems(s).Got?
    ensures es.Elem? && ProperElems(es) && s == ElemsText(es) + ("]" + ReadItems(s).rest)
    ensures ElemsMeaning(es) == ReadItems(s).value
    decreases |s|, 3
  {
    hide ReadValue, ValueText, Meaning, SkipWs;
    var before, v := ReadIsSpelled(s);
    var r := ReadValue(s);
    var after := BlankSplit(r.rest);
    var u, rest := SkipWs(r.rest), ReadItems(s).rest;
    if u[0] == ']' {
      es := Elem(before, v, after, NoElems);
      assert u == "]" + rest;
    } else {
      var more := ItemsAreSpelled(u[1..]);
      es := Elem(before, v, after, more);
      assert u == "," + (ElemsText(more) + ("]" + rest));
    }
  }

  /** A key that is read, with the blanks around it and its colon. */
  lemma KeyIsSpelled(s: string) returns (before: string, key: seq<Glyph>, beforeColon: string, afterColon: string)
    requires ReadKey(s).Got?
    ensures Blank(before) && GlyphsOk(key) && Blank(beforeColon) && Blank(afterColon)
    ensures s == before + (StringText(key) + (beforeColon + (":" + (afterColon + ReadKey(s).rest))))
    ensures GlyphsMeaning(key) == ReadKey(s).value
  {
    hide ReadString, GlyphsText, GlyphsOk, GlyphsMeaning, SkipWs;
    before := BlankSplit(s);
    var t := SkipWs(s);
    key := StringIsSpelled(t[1..]);
    var u := ReadString(t[1..]).rest;
    beforeColon := BlankSplit(u);
    var v := SkipWs(u);
    afterColon := BlankSplit(v[1..]);
    assert v == ":" + v[1..] && t == "\"" + t[1..];
    KeyGather(before, GlyphsText(key), beforeColon + (":" + (afterColon + SkipWs(v[1..]))));
  }

  lemma KeyGather(before: string, glyphs: string, u: string)
    ensures before + ("\"" + (glyphs + ("\"" + u))) == before + (("\"" + (glyphs + "\"")) + u)
  {
    assert "\"" + (glyphs + ("\"" + u)) == ("\"" + (glyphs + "\"")) + u;
  }

  lemma {:induction false} MembersAreSpelled(s: string) returns (fs: Entries)
    requires ReadMembers(s).Got?
    ensures fs.Entry? && ProperEntries(fs) && s == EntriesText(fs) + ("}" + ReadMembers(s).rest)
    ensures EntriesMeaning(fs) == ReadMembers(s).value
    decreases |s|, 3
  {
    hide ReadValue, ValueText, Meaning, SkipWs, ReadKey, GlyphsOk, GlyphsMeaning, StringText, EntriesText;
    var before, key, beforeColon, afterColon := KeyIsSpelled(s);
    var t := ReadKey(s).rest;
    var w, v := ReadIsSpelled(t);
    var r := ReadValue(t);
    var after := BlankSplit(r.rest);
    var u, rest := SkipWs(r.rest), ReadMembers(s).rest;
    BlankJoin(afterColon, w);
    var close := "}" + rest;
    if u[0] == '}' {
      fs := Entry(before, key, beforeColon, afterColon + w, v, after, NoEntries);
      assert u == Behind(NoEntries, close);
    } else {
      var more := MembersAreSpelled(u[1..]);
      fs := Entry(before, key, beforeColon, afterColon + w, v, after, more);
      assert u == Behind(more, close);
    }
    EntryShape(fs, close);
    assert fs.rest.NoEntries? || fs.rest.Entry?;
    Gather(before, StringText(key), beforeColon, afterColon, w, ValueText(v), after, u);
    assert EntriesMeaning(fs) == Member(GlyphsMeaning(key), Meaning(v), EntriesMeaning(fs.rest));
  }

  lemma Gather(a: string, b: string, c: string, d: string, w: string, e: string, f: string, u: string)
    ensures a + (b + (c + (":" + (d + (w + (e + (f + u))))))) == a + (b + (c + (":" + ((d + w) + (e + (f + u))))))
  {
    assert d + (w + (e + (f + u))) == (d + w) + (e + (f + u));
  }
}
