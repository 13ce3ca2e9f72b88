/** Tool results wrapped as character data, and a reader of CDATA sections (section 2.7 of XML 1.0). */
module ToolResponse {
  import opened Text
  import opened ToolCalls

  const RESPONSE_OPEN := "<tool_response>"
  const RESPONSE_CLOSE := "</tool_response>"
  const SECTION := "<![CDATA["
  const END := "]]>"

  /** The terminator is split over two sections. */
  function Safe(content: string): string { ReplaceAll(content, END, "]]]]><![CDATA[>") }

  function Wrapped(content: string): string {
    RESPONSE_OPEN + "\n" + SECTION + Safe(content) + END + "\n" + RESPONSE_CLOSE
  }

  datatype Sections = Broken | Sections(text: string, rest: string)

  /** The text of consecutive sections, each ended by the first terminator, and what follows them. */
  function ReadSections(s: string): Sections
    decreases |s|
  {
    if !(SECTION <= s) then Sections("", s)
    else
      var body := s[|SECTION|..];
      var e := Index(body, END);
      if e < 0 then Broken
      else
        var more := ReadSections(body[e + |END|..]);
        if more.Broken? then Broken else Sections(body[..e] + more.text, more.rest)
  }

  /** Where the section ends: text without a terminator, perhaps two brackets, and the terminator. */
  lemma FirstEnd(a: string, brackets: string, rest: string)
    requires Free(a, END) && brackets in ["", "]]"]
    ensures Index(a + brackets + END + rest, END) == |a + brackets|
  {
    var s, n := a + brackets + END + rest, |a + brackets|;
    assert s[n..n + 3] == END;
    forall k | 0 <= k < n
      ensures !HasAt(s, k, END)
    {
      assert s[k..k + 3][2] == s[k + 2];
      assert |a| <= k + 2 < n + 2 ==> s[k + 2] == ']';
      if k + 3 <= |a| {
        assert s[k..k + 3] == a[k..k + 3];
        assert !HasAt(a, k, END);
      }
    }
    IndexIsUnique(s, END, n);
  }

  /** One section read off. */
  lemma OneSection(text: string, brackets: string, rest: string)
    requires Free(text, END) && brackets in ["", "]]"]
    ensures ReadSections(SECTION + (text + brackets + END + rest))
         == var more := ReadSections(rest);
            if more.Broken? then Broken else Sections(text + brackets + more.text, more.rest)
  {
    hide Free, Index, HasAt;
    var body := text + brackets + END + rest;
    var s := SECTION + body;
    FirstEnd(text, brackets, rest);
    assert s[..|SECTION|] == SECTION && s[|SECTION|..] == body;
    assert body[..|text + brackets|] == text + brackets;
    assert body[|text + brackets| + |END|..] == rest;
  }

  /** A leading > cannot complete a terminator. */
  lemma FreeAfterLead(lead: string, a: string)
    requires lead in ["", ">"] && Free(a, END)
    ensures Free(lead + a, END)
  {
    assert lead == "" ==> lead + a == a;
    forall k
      ensures !HasAt(lead + a, k, END)
    {
      if lead == ">" {
        assert 1 <= k <= |lead + a| - 3 ==> (lead + a)[k..k + 3] == a[k - 1..k - 1 + 3];
        assert !HasAt(a, k - 1, END);
        if HasAt(lead + a, k, END) {
          HeadAt(lead + a, k, END);
        }
      }
    }
  }

  /** `lead` is what the previous section handed over: nothing, or the > of a split terminator. */
  lemma {:induction false} SectionsReadBack(lead: string, content: string, tail: string)
    requires lead in ["", ">"] && !(SECTION <= tail)
    ensures ReadSections(SECTION + (lead + Safe(content) + END + tail)) == Sections(lead + content, tail)
    decreases |content|
  {
    hide Free, Index, HasAt, ReadSections;
    var i := Index(content, END);
    NothingToRead(tail);
    if i < 0 {
      FreeIsNotFound(content, END);
      FreeAfterLead(lead, content);
      OneSection(lead + content, "", tail);
      assert lead + content + "" == lead + content;
    } else {
      EndThere(content);
      var a, more := content[..i], content[i + |END|..];
      FreeBeforeFirst(content, END);
      FreeAfterLead(lead, a);
      var rest := ">" + Safe(more) + END + tail;
      SplitText(lead, a, Safe(more), tail);
      OneSection(lead + a, "]]", SECTION + rest);
      SectionsReadBack(">", more, tail);
      JoinText(lead, a, more);
    }
  }

  lemma SplitText(lead: string, a: string, safe: string, tail: string)
    ensures lead + (a + "]]]]><![CDATA[>" + safe) + END + tail
            == (lead + a) + "]]" + END + (SECTION + (">" + safe + END + tail))
  {
    assert "]]]]><![CDATA[>" == "]]" + END + SECTION + ">";
  }

  lemma JoinText(lead: string, a: string, more: string)
    ensures (lead + a) + "]]" + (">" + more) == lead + (a + "]]>" + more)
  {
  }

  lemma NothingToRead(tail: string)
    requires !(SECTION <= tail)
    ensures ReadSections(tail) == Sections("", tail)
  {
  }

  lemma EndThere(content: string)
    requires Index(content, END) >= 0
    ensures var i := Index(content, END); i + 3 <= |content| && content == content[..i] + "]]>" + content[i + 3..]
  {
  }

  /** Wrapping loses nothing: between its tags a tool response reads back as the content. */
  lemma WrappedReadsBack(content: string)
    ensures var open, close := RESPONSE_OPEN + "\n", "\n" + RESPONSE_CLOSE;
            && open <= Wrapped(content)
            && ReadSections(Wrapped(content)[|open|..]) == Sections(content, close)
  {
    hide Safe, ReadSections;
    var close := "\n" + RESPONSE_CLOSE;
    assert Wrapped(content) == (RESPONSE_OPEN + "\n") + (SECTION + ("" + Safe(content) + END + close));
    assert close[0] != SECTION[0];
    SectionsReadBack("", content, close);
    assert "" + content == content;
  }

  /** A tool's answer becomes a user message of its own, from which the answer can be read back unchanged. */
  method RewriteToolMessage(msg: Message) returns (out: Message)
    ensures var open, close := "<tool_response>\n", "\n</tool_response>";
            open <= out.content && ReadSections(out.content[|open|..]) == Sections(msg.content, close)
    ensures fresh(out) && out.role == "user" && out.toolCalls == [] && out.content == Wrapped(msg.content)
  {
    hide Wrapped, ReadSections;
    WrappedReadsBack(msg.content);
    assert RESPONSE_OPEN + "\n" == "<tool_response>\n" && "\n" + RESPONSE_CLOSE == "\n</tool_response>";
    out := new Message("user", Wrapped(msg.content), []);
  }

  /** So different results are wrapped differently. */
  lemma WrappingIsInjective(a: string, b: string)
    requires Wrapped(a) == Wrapped(b)
    ensures a == b
  {
    hide Wrapped, ReadSections;
    WrappedReadsBack(a);
    WrappedReadsBack(b);
  }
}
