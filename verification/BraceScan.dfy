/** The brace scanner that cuts one JSON object out of a text, string- and escape-aware. */
module BraceScan {
  import opened Json

  datatype Scan = Scan(depth: int, inString: bool, escaped: bool)

  const START := Scan(0, false, false)

  /** One character of the scan; only braces outside strings count. */
  function Step(st: Scan, ch: char): Scan {
    if st.escaped then st.(escaped := false)
    else if st.inString then
      if ch == '\\' then st.(escaped := true) else if ch == '"' then st.(inString := false) else st
    else if ch == '"' then st.(inString := true)
    else if ch == '{' then st.(depth := st.depth + 1)
    else if ch == '}' then st.(depth := st.depth - 1)
    else st
  }

  function Run(st: Scan, s: string): Scan
    decreases |s|
  {
    if s == "" then st else Run(Step(st, s[0]), s[1..])
  }

  /** `n` characters from the brace on are the shortest prefix that brings the depth back to zero. */
  ghost predicate ShortestBalanced(s: string, n: nat) {
    && 0 < n <= |s| && s[0] == '{'
    && Run(START, s[..n]).depth == 0
    && forall m :: 0 < m < n ==> Run(START, s[..m]).depth != 0
  }

  /** Length of the shortest nonempty prefix with depth zero, or 0 if there is none. */
  function FirstZero(st: Scan, s: string): (n: nat)
    ensures n <= |s|
    decreases |s|
  {
    if s == "" then 0
    else if Step(st, s[0]).depth == 0 then 1
    else
      var n := FirstZero(Step(st, s[0]), s[1..]);
      if n == 0 then 0 else n + 1
  }

  datatype Extracted = NotFound | Found(text: string)

  function Extract(s: string): Extracted {
    if s == "" || s[0] != '{' then NotFound
    else
      var n := FirstZero(START, s);
      if n == 0 then NotFound else Found(s[..n])
  }

  lemma {:induction false} RunConcat(st: Scan, a: string, b: string)
    ensures Run(st, a + b) == Run(Run(st, a), b)
    decreases |a|
  {
    if a == "" {
      assert "" + b == b;
    } else {
      assert (a + b)[1..] == a[1..] + b;
      RunConcat(Step(st, a[0]), a[1..], b);
    }
  }

  lemma RunOne(st: Scan, c: char, s: string)
    ensures Run(st, [c] + s) == Run(Step(st, c), s)
  {
    assert ([c] + s)[1..] == s;
  }

  lemma {:induction false} FirstZeroIsFirst(st: Scan, s: string, m: nat)
    requires 0 < m <= |s|
    ensures var n := FirstZero(st, s);
            (n == 0 || m < n ==> Run(st, s[..m]).depth != 0) && (m == n ==> Run(st, s[..m]).depth == 0)
    decreases |s|
  {
    assert s[..m] == [s[0]] + s[1..][..m - 1];
    RunOne(st, s[0], s[1..][..m - 1]);
    if m > 1 && Step(st, s[0]).depth != 0 {
      FirstZeroIsFirst(Step(st, s[0]), s[1..], m - 1);
    } else {
      assert m == 1 ==> s[1..][..0] == "";
    }
  }

  /** Extraction succeeds with the shortest balanced prefix, and fails only if there is none. */
  lemma ExtractIsExact(s: string)
    ensures Extract(s).Found? ==> ShortestBalanced(s, |Extract(s).text|) && Extract(s).text <= s
    ensures forall n: nat :: ShortestBalanced(s, n) ==> Extract(s).Found? && |Extract(s).text| == n
  {
    if s != "" && s[0] == '{' {
      var n := FirstZero(START, s);
      forall m: nat | 0 < m <= |s|
        ensures (n == 0 || m < n ==> Run(START, s[..m]).depth != 0) && (m == n ==> Run(START, s[..m]).depth == 0)
      {
        FirstZeroIsFirst(START, s, m);
      }
    }
  }

  /** The scanner of the source, from an index into the whole text. */
  method ExtractJSONObject(s: string, startIdx: nat) returns (r: Extracted)
    requires startIdx <= |s|
    ensures r == Extract(s[startIdx..])
  {
    if startIdx >= |s| || s[startIdx] != '{' {
      return NotFound;
    }
    hide Step, FirstZero, Plus;
    var depth, inString, escaped := 0, false, false;
    ghost var t := s[startIdx..];
    var i := startIdx;
    PlusZero(FirstZero(START, t));
    while i < |s|
      invariant startIdx <= i <= |s|
      invariant i == startIdx ==> Scan(depth, inString, escaped) == START
      invariant i > startIdx ==> depth >= 1
      invariant FirstZero(START, t) == Plus(i - startIdx, FirstZero(Scan(depth, inString, escaped), s[i..]))
    {
      ScanOne(Scan(depth, inString, escaped), s, i);
      var closed;
      depth, inString, escaped, closed := ScanChar(depth, inString, escaped, s[i]);
      PlusOne(i - startIdx, FirstZero(Scan(depth, inString, escaped), s[i + 1..]));
      if closed {
        assert t[..i + 1 - startIdx] == s[startIdx..i + 1];
        return Found(s[startIdx..i + 1]);
      }
      i := i + 1;
    }
    assert s[i..] == "";
    NothingLeft(Scan(depth, inString, escaped), i - startIdx);
    return NotFound;
  }

  /** The body of the loop: one character, and whether it closed the object. */
  method ScanChar(depth: int, inString: bool, escaped: bool, ch: char) returns (d: int, q: bool, e: bool, closed: bool)
    requires depth >= 1 || (Scan(depth, inString, escaped) == START && ch == '{')
    ensures Scan(d, q, e) == Step(Scan(depth, inString, escaped), ch)
    ensures closed <==> d == 0
    ensures d >= 0
  {
    d, q, e, closed := depth, inString, escaped, false;
    if e {
      e := false;
    } else if q {
      if ch == '\\' {
        e := true;
      } else if ch == '"' {
        q := false;
      }
    } else if ch == '"' {
      q := true;
    } else if ch == '{' {
      d := d + 1;
    } else if ch == '}' {
      d := d - 1;
      if d == 0 {
        closed := true;
      }
    }
  }

  lemma PlusZero(n: nat)
    ensures Plus(0, n) == n
  {
  }

  lemma PlusOne(done: nat, n: nat)
    ensures Plus(done, 1) == done + 1 && Plus(done, Plus(1, n)) == Plus(done + 1, n)
  {
  }

  lemma ScanOne(st: Scan, s: string, i: nat)
    requires i < |s|
    ensures FirstZero(st, s[i..])
         == if Step(st, s[i]).depth == 0 then 1 else Plus(1, FirstZero(Step(st, s[i]), s[i + 1..]))
  {
    assert s[i..][1..] == s[i + 1..];
  }

  lemma NothingLeft(st: Scan, done: nat)
    ensures Plus(done, FirstZero(st, "")) == 0
  {
  }

  function Plus(done: nat, n: nat): nat { if n == 0 then 0 else done + n }

  // ---- printed JSON -----------------------------------------------------------------------

  /** The depth never falls below `d` on the way. */
  predicate Above(st: Scan, s: string, d: int)
    decreases |s|
  {
    st.depth >= d && (s == "" || Above(Step(st, s[0]), s[1..], d))
  }

  /** Reading `s` outside strings at depth `d` comes back to the same state and never drops below it. */
  ghost predicate Level(s: string, d: int) {
    var st := Scan(d, false, false);
    Run(st, s) == st && Above(st, s, d)
  }

  lemma {:induction false} AboveConcat(st: Scan, a: string, b: string, d: int)
    requires Above(st, a, d) && Above(Run(st, a), b, d)
    ensures Above(st, a + b, d)
    decreases |a|
  {
    if a == "" {
      assert "" + b == b;
    } else {
      assert (a + b)[1..] == a[1..] + b;
      AboveConcat(Step(st, a[0]), a[1..], b, d);
    }
  }

  lemma {:induction false} AboveWeaken(st: Scan, s: string, d: int)
    requires Above(st, s, d + 1)
    ensures Above(st, s, d)
    decreases |s|
  {
    if s != "" {
      AboveWeaken(Step(st, s[0]), s[1..], d);
    }
  }

  lemma LevelConcat(a: string, b: string, d: int)
    requires Level(a, d) && Level(b, d)
    ensures Level(a + b, d)
  {
    RunConcat(Scan(d, false, false), a, b);
    AboveConcat(Scan(d, false, false), a, b, d);
  }

  /** A bracketed body: one level deeper, and back. */
  lemma LevelBraces(body: string, d: int)
    requires Level(body, d + 1)
    ensures Level("{" + (body + "}"), d)
    ensures Run(Scan(d, false, false), "{" + body) == Scan(d + 1, false, false)
    ensures Above(Scan(d + 1, false, false), body, d + 1)
  {
    var st, up := Scan(d, false, false), Scan(d + 1, false, false);
    RunOne(st, '{', body);
    RunOne(st, '{', body + "}");
    RunConcat(up, body, "}");
    RunOne(up, '}', "");
    assert "}" + "" == "}" && ['}'] + "" == "}";
    AboveWeaken(up, body, d);
    assert Above(up, "}", d) by {
      assert "}"[1..] == "";
    }
    AboveConcat(up, body, "}", d);
    assert ("{" + (body + "}"))[1..] == body + "}";
  }

  /** Text without quotes and braces is passed over. */
  lemma {:induction false} LevelPlain(s: string, d: int)
    requires forall c :: c in s ==> c !in "\"{}"
    ensures Level(s, d)
    decreases |s|
  {
    if s != "" {
      assert s[0] in s && forall c :: c in s[1..] ==> c in s;
      LevelPlain(s[1..], d);
    }
  }

  lemma {:induction false} InsideString(s: string, d: int)
    ensures Run(Scan(d, true, false), Escape(s)) == Scan(d, true, false) && Above(Scan(d, true, false), Escape(s), d)
    decreases |s|
  {
    if s != "" {
      var st := Scan(d, true, false);
      EscapedChar(s[0], d);
      InsideString(s[1..], d);
      RunConcat(st, EscapeChar(s[0]), Escape(s[1..]));
      AboveConcat(st, EscapeChar(s[0]), Escape(s[1..]), d);
    }
  }

  lemma {:induction false} PlainInString(s: string, d: int)
    requires forall c :: c in s ==> c != '"' && c != '\\'
    ensures Run(Scan(d, true, false), s) == Scan(d, true, false) && Above(Scan(d, true, false), s, d)
    decreases |s|
  {
    if s != "" {
      assert s[0] in s && forall c :: c in s[1..] ==> c in s;
      PlainInString(s[1..], d);
    }
  }

  lemma BackslashPair(e: char, rest: string, d: int)
    requires forall c :: c in rest ==> c != '"' && c != '\\'
    ensures var s := ['\\', e] + rest;
            Run(Scan(d, true, false), s) == Scan(d, true, false) && Above(Scan(d, true, false), s, d)
  {
    var s := ['\\', e] + rest;
    assert s[1..] == [e] + rest && ([e] + rest)[1..] == rest;
    assert Step(Scan(d, true, false), '\\') == Scan(d, true, true);
    assert Step(Scan(d, true, true), e) == Scan(d, true, false);
    PlainInString(rest, d);
  }

  lemma HexIsPlain(n: nat)
    requires n < 16
    ensures HexDigit(n) != '"' && HexDigit(n) != '\\' && HexDigit(n) != '<'
  {
  }

  lemma Hex4IsPlain(n: nat)
    requires n < 0x10000
    ensures forall c :: c in Hex4(n) ==> c != '"' && c != '\\' && c != '<'
  {
    hide HexDigit;
    HexIsPlain(n / 256 / 16);
    HexIsPlain(n / 256 % 16);
    HexIsPlain(n % 256 / 16);
    HexIsPlain(n % 256 % 16);
  }

  lemma EscapedChar(c: char, d: int)
    ensures Run(Scan(d, true, false), EscapeChar(c)) == Scan(d, true, false)
            && Above(Scan(d, true, false), EscapeChar(c), d)
  {
    hide Hex4, Run, Above;
    var e := EscapeChar(c);
    if |e| == 1 {
      PlainInString(e, d);
    } else if NeedsUnicodeEscape(c) && |e| == 6 {
      Hex4IsPlain(c as int);
      assert e == ['\\', 'u'] + Hex4(c as int);
      BackslashPair('u', Hex4(c as int), d);
    } else {
      assert e == ['\\', e[1]] + "";
      BackslashPair(e[1], "", d);
    }
  }

  lemma LevelQuote(s: string, d: int)
    ensures Level(Quote(s), d)
  {
    var out, in_ := Scan(d, false, false), Scan(d, true, false);
    InsideString(s, d);
    RunConcat(in_, Escape(s), "\"");
    assert Run(in_, "\"") == out && Above(in_, "\"", d) by {
      assert "\""[1..] == "";
    }
    AboveConcat(in_, Escape(s), "\"", d);
    assert Quote(s)[1..] == Escape(s) + "\"";
  }

  lemma {:induction false} LevelPrint(j: Json, d: int)
    requires WellFormed(j)
    ensures Level(Print(j), d)
    decreases j
  {
    hide Level, Quote, ValidNumber;
    match j
    case Null => LevelPlain("null", d);
    case Bool(b) => LevelPlain(Print(j), d);
    case Number(text) => LevelPlain(text, d);
    case String(s) => LevelQuote(s, d);
    case Array(items) =>
      LevelItems(items, d);
      LevelPlain("[", d);
      LevelPlain("]", d);
      LevelConcat(PrintItems(items), "]", d);
      LevelConcat("[", PrintItems(items) + "]", d);
    case Object(members) =>
      LevelMembers(members, d + 1);
      LevelBraces(PrintMembers(members), d);
  }

  lemma {:induction false} LevelItems(items: Items, d: int)
    requires WellFormedItems(items)
    ensures Level(PrintItems(items), d)
    decreases items
  {
    hide Level, Print;
    match items
    case NoItems => LevelPlain("", d);
    case Item(head, tail) =>
      LevelPrint(head, d);
      if tail.Item? {
        LevelItems(tail, d);
        LevelPlain(",", d);
        LevelConcat(",", PrintItems(tail), d);
        LevelConcat(Print(head), "," + PrintItems(tail), d);
      }
  }

  lemma {:induction false} LevelMembers(ms: Members, d: int)
    requires WellFormedMembers(ms)
    ensures Level(PrintMembers(ms), d)
    decreases ms
  {
    hide Level, Print, Quote;
    match ms
    case NoMembers => LevelPlain("", d);
    case Member(key, value, rest) =>
      var first := Quote(key) + (":" + Print(value));
      LevelQuote(key, d);
      LevelPrint(value, d);
      LevelPlain(":", d);
      LevelConcat(":", Print(value), d);
      LevelConcat(Quote(key), ":" + Print(value), d);
      if rest.Member? {
        LevelMembers(rest, d);
        LevelPlain(",", d);
        LevelConcat(",", PrintMembers(rest), d);
        LevelConcat(first, "," + PrintMembers(rest), d);
      }
  }

  lemma {:induction false} FirstZeroSkips(st: Scan, a: string, b: string)
    requires Above(st, a, 1)
    ensures var n := FirstZero(Run(st, a), b); FirstZero(st, a + b) == if n == 0 then 0 else |a| + n
    decreases |a|
  {
    if a == "" {
      assert "" + b == b;
    } else {
      assert (a + b)[1..] == a[1..] + b;
      FirstZeroSkips(Step(st, a[0]), a[1..], b);
    }
  }

  lemma FirstZeroOpens(tail: string)
    ensures var n := FirstZero(Scan(1, false, false), tail); FirstZero(START, "{" + tail) == if n == 0 then 0 else n + 1
  {
    assert ("{" + tail)[1..] == tail;
  }

  lemma FirstZeroCloses(rest: string)
    ensures FirstZero(Scan(1, false, false), "}" + rest) == 1
  {
  }

  lemma ExtractIs(s: string, n: nat)
    requires s != "" && s[0] == '{' && 0 < n <= |s| && FirstZero(START, s) == n
    ensures Extract(s) == Found(s[..n])
  {
  }

  lemma BracesAreExtracted(body: string, rest: string)
    requires Level(body, 1)
    ensures Extract("{" + (body + ("}" + rest))) == Found("{" + (body + "}"))
  {
    hide Level, Run, Above, Step, FirstZero, Extract;
    var s := "{" + (body + ("}" + rest));
    LevelBraces(body, 0);
    LevelRuns(body, 1);
    FirstZeroSkips(Scan(1, false, false), body, "}" + rest);
    FirstZeroCloses(rest);
    FirstZeroOpens(body + ("}" + rest));
    ExtractIs(s, |body| + 2);
    assert s[..|body| + 2] == "{" + (body + "}");
  }

  /**
   A printed object is cut out exactly, whatever follows it and whatever braces, quotes and
   backslashes its strings contain.
   */
  lemma PrintedObjectIsExtracted(ms: Members, rest: string)
    requires WellFormedMembers(ms)
    ensures Extract(Print(Object(ms)) + rest) == Found(Print(Object(ms)))
  {
    hide PrintMembers, Level, Extract;
    var body := PrintMembers(ms);
    LevelMembers(ms, 1);
    BracesAreExtracted(body, rest);
    assert ("{" + (body + "}")) + rest == "{" + (body + ("}" + rest));
  }

  lemma LevelRuns(s: string, d: int)
    ensures Level(s, d) ==> Run(Scan(d, false, false), s) == Scan(d, false, false)
  {
  }

  // ---- no angle bracket is ever printed -------------------------------------------------------

  lemma EscapedCharHasNoBracket(c: char)
    ensures '<' !in EscapeChar(c)
  {
    hide Hex4;
    if NeedsUnicodeEscape(c) {
      Hex4IsPlain(c as int);
    }
  }

  lemma {:induction false} EscapeHasNoBracket(s: string)
    ensures '<' !in Escape(s)
    decreases |s|
  {
    if s != "" {
      hide EscapeChar;
      EscapeHasNoBracket(s[1..]);
      EscapedCharHasNoBracket(s[0]);
    }
  }

  lemma {:induction false} PrintHasNoBracket(j: Json)
    requires WellFormed(j)
    ensures '<' !in Print(j)
    decreases j
  {
    hide ValidNumber, Escape;
    match j
    case Null =>
    case Bool(_) =>
    case Number(text) =>
    case String(s) => EscapeHasNoBracket(s);
    case Array(items) => ItemsHaveNoBracket(items);
    case Object(members) => MembersHaveNoBracket(members);
  }

  lemma {:induction false} ItemsHaveNoBracket(items: Items)
    requires WellFormedItems(items)
    ensures '<' !in PrintItems(items)
    decreases items
  {
    hide Print;
    if items.Item? {
      PrintHasNoBracket(items.head);
      ItemsHaveNoBracket(items.tail);
    }
  }

  lemma {:induction false} MembersHaveNoBracket(ms: Members)
    requires WellFormedMembers(ms)
    ensures '<' !in PrintMembers(ms)
    decreases ms
  {
    hide Print, Escape;
    if ms.Member? {
      EscapeHasNoBracket(ms.key);
      PrintHasNoBracket(ms.value);
      MembersHaveNoBracket(ms.rest);
    }
  }
}
