/** String searching as Go's strings package does it. */
module Text {

  predicate HasAt(s: string, i: int, pat: string) { 0 <= i <= |s| - |pat| && s[i..i + |pat|] == pat }

  function IndexFrom(s: string, pat: string, i: nat): (r: int)
    requires i <= |s|
    ensures r == -1 || (i <= r && HasAt(s, r, pat))
    ensures forall k :: i <= k && (k < r || r == -1) ==> !HasAt(s, k, pat)
    decreases |s| - i
  {
    if HasAt(s, i, pat) then i
    else if i == |s| then -1
    else IndexFrom(s, pat, i + 1)
  }

  /** strings.Index: the first occurrence, or -1. */
  function Index(s: string, pat: string): (r: int)
    ensures r == -1 || HasAt(s, r, pat)
    ensures forall k :: 0 <= k && (k < r || r == -1) ==> !HasAt(s, k, pat)
  {
    IndexFrom(s, pat, 0)
  }

  ghost predicate Free(s: string, pat: string) { forall k :: !HasAt(s, k, pat) }

  lemma FreeIsNotFound(s: string, pat: string)
    ensures Free(s, pat) <==> Index(s, pat) == -1
    ensures Index(s, pat) == -1 <==> Index(s, pat) < 0
  {
    if Index(s, pat) == -1 {
      forall k
        ensures !HasAt(s, k, pat)
      {
      }
    }
  }

  lemma IndexIsUnique(s: string, pat: string, r: int)
    requires HasAt(s, r, pat) && forall k :: 0 <= k < r ==> !HasAt(s, k, pat)
    ensures Index(s, pat) == r
  {
  }

  /** An occurrence in a concatenation lies in one part or straddles the seam. */
  lemma OccurrenceInConcat(a: string, b: string, pat: string, k: int)
    requires |pat| > 0 && HasAt(a + b, k, pat)
    ensures HasAt(a, k, pat) || HasAt(b, k - |a|, pat) || (k < |a| < k + |pat| && b != "" && b[0] in pat[1..])
  {
    var s := a + b;
    if k + |pat| <= |a| {
      assert s[k..k + |pat|] == a[k..k + |pat|];
    } else if k >= |a| {
      assert s[k..k + |pat|] == b[k - |a|..k - |a| + |pat|];
    } else {
      var o := |a| - k;
      assert pat[o] == s[k..k + |pat|][o] == s[|a|] == b[0];
      assert pat[1..][o - 1] == pat[o];
    }
  }

  lemma FreeConcat(a: string, b: string, pat: string)
    requires |pat| > 0 && Free(a, pat) && Free(b, pat)
    requires b == "" || b[0] !in pat[1..]
    ensures Free(a + b, pat)
  {
    forall k
      ensures !HasAt(a + b, k, pat)
    {
      if HasAt(a + b, k, pat) {
        OccurrenceInConcat(a, b, pat, k);
      }
    }
  }

  /** A pattern whose first character does not recur is found right where it was put. */
  lemma IndexAfterFree(a: string, pat: string, rest: string)
    requires |pat| > 0 && Free(a, pat) && pat[0] !in pat[1..]
    ensures Index(a + (pat + rest), pat) == |a|
  {
    var b := pat + rest;
    assert (a + b)[|a|..|a| + |pat|] == pat;
    forall k | 0 <= k < |a|
      ensures !HasAt(a + b, k, pat)
    {
      if HasAt(a + b, k, pat) {
        OccurrenceInConcat(a, b, pat, k);
      }
    }
    IndexIsUnique(a + b, pat, |a|);
  }

  lemma HeadAt(s: string, k: int, pat: string)
    requires |pat| > 0 && HasAt(s, k, pat)
    ensures s[k] == pat[0] && (|pat| > 1 ==> s[k + 1] == pat[1])
  {
    assert s[k..k + |pat|][0] == s[k];
    assert |pat| > 1 ==> s[k..k + |pat|][1] == s[k + 1];
  }

  lemma FreeWithoutFirst(s: string, pat: string)
    requires |pat| > 0 && pat[0] !in s
    ensures Free(s, pat)
  {
    forall k
      ensures !HasAt(s, k, pat)
    {
      if HasAt(s, k, pat) {
        HeadAt(s, k, pat);
      }
    }
  }

  /** strings.ReplaceAll: non-overlapping occurrences, from left to right. */
  function ReplaceAll(s: string, pat: string, replacement: string): string
    requires |pat| > 0
    decreases |s|
  {
    var i := Index(s, pat);
    if i < 0 then s else s[..i] + replacement + ReplaceAll(s[i + |pat|..], pat, replacement)
  }

  predicate IsSpace(c: char) {
    || c in "\t\n\U{B}\U{C}\r \U{85}\U{A0}\U{1680}\U{2028}\U{2029}\U{202F}\U{205F}\U{3000}"
    || '\U{2000}' <= c <= '\U{200A}'
  }

  function TrimLeft(s: string): string { if s != "" && IsSpace(s[0]) then TrimLeft(s[1..]) else s }
  function TrimRight(s: string): string { if s != "" && IsSpace(s[|s| - 1]) then TrimRight(s[..|s| - 1]) else s }
  function TrimSpace(s: string): string { TrimRight(TrimLeft(s)) }

  ghost predicate AllSpace(s: string) { forall c :: c in s ==> IsSpace(c) }

  /** No white space at either edge. */
  predicate Trimmed(s: string) { s != "" ==> !IsSpace(s[0]) && !IsSpace(s[|s| - 1]) }

  lemma {:induction false} TrimLeftIs(a: string, s: string)
    requires AllSpace(a) && (s != "" ==> !IsSpace(s[0]))
    ensures TrimLeft(a + s) == s
    decreases |a|
  {
    hide IsSpace;
    if a == "" {
      assert a + s == s;
    } else {
      assert a[0] in a && (a + s)[0] == a[0] && (a + s)[1..] == a[1..] + s;
      TrimLeftIs(a[1..], s);
    }
  }

  lemma {:induction false} TrimRightIs(s: string, b: string)
    requires AllSpace(b) && (s != "" ==> !IsSpace(s[|s| - 1]))
    ensures TrimRight(s + b) == s
    decreases |b|
  {
    hide IsSpace;
    if b == "" {
      assert s + b == s;
    } else {
      var last := |b| - 1;
      assert b[last] in b && (s + b)[|s + b| - 1] == b[last] && (s + b)[..|s + b| - 1] == s + b[..last];
      TrimRightIs(s, b[..last]);
    }
  }

  /** Trimming cuts white space off both edges, all of it and nothing else. */
  lemma TrimIs(a: string, s: string, b: string)
    requires AllSpace(a) && AllSpace(b) && Trimmed(s)
    ensures TrimSpace(a + s + b) == s
  {
    hide IsSpace, TrimLeft, TrimRight;
    if s == "" {
      TrimLeftIs(a + b, "");
      assert a + s + b == (a + b) + "";
      TrimRightIs("", "");
      assert "" + "" == "";
    } else {
      TrimLeftIs(a, s + b);
      assert a + s + b == a + (s + b);
      TrimRightIs(s, b);
    }
  }

  lemma {:induction false} LeftCut(s: string) returns (a: string)
    ensures AllSpace(a) && s == a + TrimLeft(s) && (TrimLeft(s) != "" ==> !IsSpace(TrimLeft(s)[0]))
    decreases |s|
  {
    hide IsSpace;
    a := "";
    if s != "" && IsSpace(s[0]) {
      var more := LeftCut(s[1..]);
      a := [s[0]] + more;
    }
  }

  lemma {:induction false} RightCut(s: string) returns (b: string)
    ensures AllSpace(b) && s == TrimRight(s) + b && TrimRight(s) <= s
    ensures TrimRight(s) != "" ==> !IsSpace(TrimRight(s)[|TrimRight(s)| - 1])
    decreases |s|
  {
    hide IsSpace;
    b := "";
    if s != "" && IsSpace(s[|s| - 1]) {
      var more := RightCut(s[..|s| - 1]);
      b := more + [s[|s| - 1]];
    }
  }

  /** Every text is its trimmed form with white space around it. */
  lemma TrimCuts(s: string) returns (a: string, b: string)
    ensures AllSpace(a) && AllSpace(b) && s == a + TrimSpace(s) + b && Trimmed(TrimSpace(s))
  {
    hide IsSpace, TrimLeft, TrimRight;
    a := LeftCut(s);
    b := RightCut(TrimLeft(s));
    assert a + (TrimSpace(s) + b) == a + TrimSpace(s) + b;
  }

  /** The characters of the Unicode property White_Space. */
  lemma SpaceCharacters(c: char)
    ensures IsSpace(c) <==>
              || 9 <= c as int <= 13 || c as int == 0x20 || c as int == 0x85 || c as int == 0xA0 || c as int == 0x1680
              || 0x2000 <= c as int <= 0x200A || c as int == 0x2028 || c as int == 0x2029 || c as int == 0x202F
              || c as int == 0x205F || c as int == 0x3000
  {
  }

  // ---- spans between an opening and a closing tag -------------------------------------------

  /** Tags like <x> and </x>: the bracket opens them and does not recur, and they part at once. */
  predicate TagPair(open: string, close: string) {
    && |open| >= 2 && |close| >= 2 && open[0] == close[0] == '<' && open[1] != close[1]
    && '<' !in open[1..] && '<' !in close[1..]
  }

  datatype Cut = Clear | Unclosed(before: string) | Span(before: string, inside: string, after: string)

  lemma Parts(s: string, i: int, pat: string)
    requires HasAt(s, i, pat)
    ensures s == s[..i] + (pat + s[i + |pat|..])
  {
    assert s[i..] == s[i..i + |pat|] + s[i + |pat|..];
    assert s == s[..i] + s[i..];
  }

  lemma SpanText(s: string, o: int, open: string, e: int, close: string)
    requires HasAt(s, o, open) && HasAt(s[o + |open|..], e, close)
    ensures var body := s[o + |open|..]; s == s[..o] + open + body[..e] + close + body[e + |close|..]
  {
    var body := s[o + |open|..];
    Parts(s, o, open);
    Parts(body, e, close);
    Regroup(s[..o], open, body[..e], close, body[e + |close|..]);
  }

  lemma Regroup(a: string, b: string, c: string, d: string, e: string)
    ensures a + (b + (c + (d + e))) == a + b + c + d + e
  {
  }

  /** The first span: up to the first closing tag behind the first opening one. */
  function NextCut(s: string, open: string, close: string): (c: Cut)
    ensures c.Span? ==> s == c.before + open + c.inside + close + c.after
  {
    var o := Index(s, open);
    if o < 0 then Clear
    else
      var body := s[o + |open|..];
      var e := Index(body, close);
      if e < 0 then Unclosed(s[..o])
      else
        SpanText(s, o, open, e, close);
        Span(s[..o], body[..e], body[e + |close|..])
  }

  /** Everything outside the spans; an opening tag that is never closed swallows the rest. */
  function Strip(s: string, open: string, close: string): string
    requires |open| > 0
    decreases |s|
  {
    match NextCut(s, open, close)
    case Clear => s
    case Unclosed(before) => before
    case Span(before, _, after) => before + Strip(after, open, close)
  }

  /** Where the spans lie, counted from `base`. */
  function Spans(s: string, base: nat, open: string, close: string): seq<(nat, nat)>
    requires |open| > 0
    decreases |s|
  {
    match NextCut(s, open, close)
    case Clear => []
    case Unclosed(_) => []
    case Span(before, inside, after) =>
      var from := base + |before|;
      var to := from + |open| + |inside| + |close|;
      [(from, to)] + Spans(after, to, open, close)
  }

  /** Searching the closing tag from the opening one or from behind it finds the same place. */
  lemma CloseSearchAgrees(open: string, close: string, body: string)
    requires TagPair(open, close)
    ensures Index(open + body, close) == if Index(body, close) < 0 then -1 else |open| + Index(body, close)
  {
    var s := open + body;
    forall j | 0 < j < |open|
      ensures s[j] != '<'
    {
      assert s[j] == open[1..][j - 1];
    }
    forall k
      ensures HasAt(s, k, close) <==> HasAt(body, k - |open|, close)
    {
      if HasAt(s, k, close) {
        HeadAt(s, k, close);
      }
      if k >= |open| && k <= |s| - |close| {
        assert s[k..k + |close|] == body[k - |open|..k - |open| + |close|];
      }
    }
    var e := Index(body, close);
    if e < 0 {
      FreeIsNotFound(body, close);
      FreeIsNotFound(s, close);
    } else {
      IndexIsUnique(s, close, |open| + e);
    }
  }

  /** One span written out is found as written. */
  lemma CutOfSpan(before: string, open: string, inside: string, close: string, after: string)
    requires TagPair(open, close) && Free(before, open) && Free(inside, close)
    ensures NextCut(before + (open + (inside + (close + after))), open, close) == Span(before, inside, after)
  {
    hide HasAt, Free, Index;
    var body := inside + (close + after);
    var s := before + (open + body);
    IndexAfterFree(before, open, body);
    IndexAfterFree(inside, close, after);
    assert s[..|before|] == before;
    assert s[|before| + |open|..] == body;
    assert body[..|inside|] == inside && body[|inside| + |close|..] == after;
  }

  lemma CutOfUnclosed(before: string, open: string, lost: string, close: string)
    requires TagPair(open, close) && Free(before, open) && Free(lost, close)
    ensures NextCut(before + (open + lost), open, close) == Unclosed(before)
  {
    hide HasAt, Free, Index;
    IndexAfterFree(before, open, lost);
    var s := before + (open + lost);
    assert s[..|before|] == before && s[|before| + |open|..] == lost;
    FreeIsNotFound(lost, close);
  }

  datatype Piece = Piece(hidden: string, shown: string)

  /** a0 <open> b1 <close> a1 <open> b2 <close> a2 … */
  function Weave(first: string, pieces: seq<Piece>, open: string, close: string): string
    decreases |pieces|
  {
    if pieces == [] then first
    else first + (open + (pieces[0].hidden + (close + Weave(pieces[0].shown, pieces[1..], open, close))))
  }

  function Shown(first: string, pieces: seq<Piece>): string
    decreases |pieces|
  {
    if pieces == [] then first else first + Shown(pieces[0].shown, pieces[1..])
  }

  ghost predicate Woven(first: string, pieces: seq<Piece>, open: string, close: string) {
    && Free(first, open)
    && forall k :: 0 <= k < |pieces| ==> Free(pieces[k].hidden, close) && Free(pieces[k].shown, open)
  }

  /** Stripping a text woven of shown and hidden segments leaves exactly the shown ones. */
  lemma {:induction false} StripOfWeave(first: string, pieces: seq<Piece>, open: string, close: string)
    requires TagPair(open, close) && Woven(first, pieces, open, close)
    ensures Strip(Weave(first, pieces, open, close), open, close) == Shown(first, pieces)
    decreases |pieces|
  {
    if pieces == [] {
      FreeIsNotFound(first, open);
    } else {
      var rest := Weave(pieces[0].shown, pieces[1..], open, close);
      CutOfSpan(first, open, pieces[0].hidden, close, rest);
      StripOfWeave(pieces[0].shown, pieces[1..], open, close);
    }
  }

  /** A trailing opening tag that is never closed drops what follows it, and nothing else. */
  lemma {:induction false} StripOfUnclosed(first: string, pieces: seq<Piece>, lost: string, open: string, close: string)
    requires TagPair(open, close) && Woven(first, pieces, open, close) && Free(lost, close)
    ensures Strip(Weave(first, pieces, open, close) + (open + lost), open, close) == Shown(first, pieces)
    decreases |pieces|
  {
    hide HasAt, Free, Index, NextCut;
    var tail := open + lost;
    if pieces == [] {
      CutOfUnclosed(first, open, lost, close);
    } else {
      var rest := Weave(pieces[0].shown, pieces[1..], open, close);
      var h := pieces[0].hidden;
      assert (first + (open + (h + (close + rest)))) + tail == first + (open + (h + (close + (rest + tail))));
      CutOfSpan(first, open, h, close, rest + tail);
      StripOfUnclosed(pieces[0].shown, pieces[1..], lost, open, close);
    }
  }

  datatype Unwoven = Unwoven(first: string, pieces: seq<Piece>, tail: string)

  /** Cut a text into its shown and hidden segments and an unclosed tail, if any. */
  function Unweave(s: string, open: string, close: string): Unwoven
    requires |open| > 0
    decreases |s|
  {
    match NextCut(s, open, close)
    case Clear => Unwoven(s, [], "")
    case Unclosed(before) => Unwoven(before, [], s[|before|..])
    case Span(before, inside, after) =>
      var u := Unweave(after, open, close);
      Unwoven(before, [Piece(inside, u.first)] + u.pieces, u.tail)
  }

  lemma NextCutIsFirst(s: string, open: string, close: string)
    requires |open| > 0 && |close| > 0
    ensures var c := NextCut(s, open, close);
            match c
            case Clear => Free(s, open)
            case Unclosed(before) => Free(before, open) && before + open <= s && Free(s[|before + open|..], close)
            case Span(before, inside, after) => Free(before, open) && Free(inside, close)
  {
    hide Free;
    var o := Index(s, open);
    if o < 0 {
      FreeIsNotFound(s, open);
    } else {
      FreeBeforeFirst(s, open);
      var body := s[o + |open|..];
      assert s[..o + |open|] == s[..o] + open;
      if Index(body, close) < 0 {
        FreeIsNotFound(body, close);
      } else {
        FreeBeforeFirst(body, close);
      }
    }
  }

  lemma FreeBeforeFirst(s: string, pat: string)
    requires Index(s, pat) >= 0 && |pat| > 0
    ensures Free(s[..Index(s, pat)], pat)
  {
    var t := s[..Index(s, pat)];
    forall k
      ensures !HasAt(t, k, pat)
    {
      if HasAt(t, k, pat) {
        assert t[k..k + |pat|] == s[k..k + |pat|];
        assert HasAt(s, k, pat);
      }
    }
  }

  /** Every text is a weave, or a weave and an opening tag that is never closed: so the two lemmas above fix Strip. */
  lemma {:induction false} EveryTextIsWoven(s: string, open: string, close: string)
    requires |open| > 0 && |close| > 0
    ensures var u := Unweave(s, open, close);
            && Woven(u.first, u.pieces, open, close)
            && s == Weave(u.first, u.pieces, open, close) + u.tail
            && (u.tail == "" || (open <= u.tail && Free(u.tail[|open|..], close)))
    decreases |s|
  {
    hide HasAt, Free, Index, NextCut;
    NextCutIsFirst(s, open, close);
    match NextCut(s, open, close)
    case Clear =>
    case Unclosed(before) =>
      assert s[|before|..][|open|..] == s[|before + open|..];
      assert s[|before|..][..|open|] == open by {
        assert s[..|before + open|][|before|..] == open;
      }
    case Span(before, inside, after) =>
      var u := Unweave(after, open, close);
      EveryTextIsWoven(after, open, close);
      var pieces := [Piece(inside, u.first)] + u.pieces;
      assert pieces[1..] == u.pieces;
      WeaveOne(before, inside, after, u.first, u.pieces, u.tail, open, close);
  }

  lemma WeaveOne(before: string, inside: string, after: string, first: string, pieces: seq<Piece>, tail: string,
      open: string, close: string)
    requires after == Weave(first, pieces, open, close) + tail
    ensures before + open + inside + close + after == Weave(before, [Piece(inside, first)] + pieces, open, close) + tail
  {
    var w := Weave(first, pieces, open, close);
    assert ([Piece(inside, first)] + pieces)[1..] == pieces;
    assert before + open + inside + close + (w + tail) == (before + (open + (inside + (close + w)))) + tail;
  }
}
