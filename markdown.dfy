/** The chat pane's markdown-to-HTML converter (App.tsx): `applyInlineFormatting`, three global
    regular-expression replacements, and `parseMarkdown`, a line-by-line state machine over
    the list kind, the code-block flag and the paragraph buffer.

    The HTML is specified as a sequence of `Tag`s, the pieces the converter appends to
    `html` one at a time; `Html` concatenates their texts. */
module Markdown {
  import opened Strings
  import opened Types

  // ----- inline formatting -----

  /** A character the body of a span may hold: `.` for the emphasis rules, `[^`]` for code. */
  predicate BodyChar(code: bool, c: char) {
    if code then c != '`' else !IsLineTerminator(c)
  }

  /** Where the closing `delim` of a span whose body starts at `t[0]` is: the first `k >= min`
      with `delim` at `t[k..]`, the body `t[..k]` made of body characters. */
  function CloseAt(t: string, delim: string, code: bool, min: nat, k: nat): (r: Option<nat>)
    requires k <= |t|
    requires forall j :: 0 <= j < k ==> BodyChar(code, t[j])
    ensures r.Some? ==> k <= r.value <= |t| && min <= r.value && StartsWith(t[r.value..], delim)
    ensures r.Some? ==> forall j :: 0 <= j < r.value ==> BodyChar(code, t[j])
    ensures r.Some? ==> forall j :: k <= j < r.value && min <= j ==> !StartsWith(t[j..], delim)
    decreases |t| - k
  {
    if min <= k && StartsWith(t[k..], delim) then Some(k)
    else if k < |t| && BodyChar(code, t[k]) then CloseAt(t, delim, code, min, k + 1)
    else None
  }

  /** `s.replace(/<delim>(<body>)<delim>/g, open + '$1' + close)`: scanning left to right, each
      position that starts a span is replaced by its tagged body and the scan resumes after the
      span; any other character is kept. */
  function ReplaceSpans(s: string, delim: string, code: bool, min: nat, open: string, close: string): string
    requires delim != []
    decreases |s|
  {
    if s == [] then []
    else if StartsWith(s, delim) then
      match CloseAt(s[|delim|..], delim, code, min, 0)
      case Some(k) =>
        var body := s[|delim|..|delim| + k];
        open + body + close + ReplaceSpans(s[|delim| + k + |delim|..], delim, code, min, open, close)
      case None => [s[0]] + ReplaceSpans(s[1..], delim, code, min, open, close)
    else [s[0]] + ReplaceSpans(s[1..], delim, code, min, open, close)
  }

  function Strong(s: string): string {
    ReplaceSpans(s, "**", false, 0, "<strong>", "</strong>")
  }

  function Emphasis(s: string): string {
    ReplaceSpans(s, "*", false, 0, "<em>", "</em>")
  }

  function InlineCode(s: string): string {
    ReplaceSpans(s, "`", true, 1, "<code>", "</code>")
  }

  /** `applyInlineFormatting`: bold, then italics, then inline code. */
  function ApplyInlineFormatting(text: string): string {
    InlineCode(Emphasis(Strong(text)))
  }

  /** No position of `s` starts `delim`. */
  predicate NoStart(s: string, delim: string) {
    forall j :: 0 <= j < |s| ==> !StartsWith(s[j..], delim)
  }

  /** Text in which no span can start passes through unchanged. */
  lemma {:induction false} ReplaceSpansIdentity(s: string, delim: string, code: bool, min: nat, open: string, close: string)
    requires delim != [] && NoStart(s, delim)
    ensures ReplaceSpans(s, delim, code, min, open, close) == s
    decreases |s|
  {
    if s != [] {
      assert s[0..] == s;
      forall j | 0 <= j < |s[1..]| ensures !StartsWith(s[1..][j..], delim) {
        assert s[1..][j..] == s[j + 1..];
      }
      ReplaceSpansIdentity(s[1..], delim, code, min, open, close);
    }
  }

  lemma {:induction false} NoStartOfMissing(s: string, delim: string)
    requires delim != [] && delim[0] !in s
    ensures NoStart(s, delim)
  {
    forall j | 0 <= j < |s| ensures !StartsWith(s[j..], delim) {
      assert s[j..][0] == s[j];
    }
  }

  predicate NoMarkup(s: string) {
    '*' !in s && '`' !in s
  }

  /** Text with no `*` and no backquote is left exactly as it is. */
  lemma {:induction false} InlineIdentity(text: string)
    requires NoMarkup(text)
    ensures ApplyInlineFormatting(text) == text
  {
    NoStartOfMissing(text, "**");
    ReplaceSpansIdentity(text, "**", false, 0, "<strong>", "</strong>");
    NoStartOfMissing(text, "*");
    ReplaceSpansIdentity(text, "*", false, 0, "<em>", "</em>");
    NoStartOfMissing(text, "`");
    ReplaceSpansIdentity(text, "`", true, 1, "<code>", "</code>");
  }

  /** Plain words: no markup characters and no line terminators. */
  predicate Plain(body: string) {
    forall j :: 0 <= j < |body| ==> body[j] != '*' && body[j] != '`' && !IsLineTerminator(body[j])
  }

  lemma {:induction false} PlainHasNoMarkup(body: string)
    requires Plain(body)
    ensures NoMarkup(body)
  {
    forall c | c in body ensures c != '*' && c != '`' {
      var j :| 0 <= j < |body| && body[j] == c;
    }
  }

  lemma {:induction false} CloseFound(t: string, delim: string, code: bool, min: nat, k: nat, n: nat)
    requires k <= n <= |t| && min <= n
    requires forall j :: 0 <= j < n ==> BodyChar(code, t[j]) && !StartsWith(t[j..], delim)
    requires StartsWith(t[n..], delim)
    ensures CloseAt(t, delim, code, min, k) == Some(n)
    decreases n - k
  {
    if k < n {
      CloseFound(t, delim, code, min, k + 1, n);
    }
  }

  /** A span whose body holds no markup characters is replaced by the tagged body. */
  lemma {:induction false} SpanOfPlain(delim: string, body: string, code: bool, min: nat, open: string, close: string)
    requires delim != [] && (delim[0] == '*' || delim[0] == '`')
    requires Plain(body) && min <= |body|
    ensures ReplaceSpans(delim + body + delim, delim, code, min, open, close) == open + body + close
  {
    var s := delim + body + delim;
    var t := s[|delim|..];
    assert t == body + delim;
    assert StartsWith(s, delim);
    forall j | 0 <= j < |body|
      ensures BodyChar(code, t[j]) && !StartsWith(t[j..], delim)
    {
      assert t[j] == body[j];
      assert t[j..][0] == body[j];
    }
    assert t[|body|..] == delim;
    CloseFound(t, delim, code, min, 0, |body|);
    assert s[|delim|..|delim| + |body|] == body;
    assert s[|delim| + |body| + |delim|..] == [];
  }

  lemma {:induction false} StillNoMarkup(open: string, body: string, close: string)
    requires NoMarkup(open) && NoMarkup(body) && NoMarkup(close)
    ensures NoMarkup(open + body + close)
  {
    var s := open + body + close;
    forall j | 0 <= j < |s| ensures s[j] != '*' && s[j] != '`' {
      if j < |open| {
        assert s[j] == open[j] && open[j] in open;
      } else if j < |open| + |body| {
        assert s[j] == body[j - |open|] && body[j - |open|] in body;
      } else {
        assert s[j] == close[j - |open| - |body|] && close[j - |open| - |body|] in close;
      }
    }
  }

  /** `**words**` becomes bold. */
  lemma {:induction false} BoldSpan(body: string)
    requires Plain(body)
    ensures ApplyInlineFormatting("**" + body + "**") == "<strong>" + body + "</strong>"
  {
    PlainHasNoMarkup(body);
    SpanOfPlain("**", body, false, 0, "<strong>", "</strong>");
    StillNoMarkup("<strong>", body, "</strong>");
    NoStartOfMissing("<strong>" + body + "</strong>", "*");
    ReplaceSpansIdentity("<strong>" + body + "</strong>", "*", false, 0, "<em>", "</em>");
    NoStartOfMissing("<strong>" + body + "</strong>", "`");
    ReplaceSpansIdentity("<strong>" + body + "</strong>", "`", true, 1, "<code>", "</code>");
  }

  /** `*words*` becomes italic when the words are not empty. */
  lemma {:induction false} ItalicSpan(body: string)
    requires Plain(body) && body != []
    ensures ApplyInlineFormatting("*" + body + "*") == "<em>" + body + "</em>"
  {
    PlainHasNoMarkup(body);
    var s := "*" + body + "*";
    forall j | 0 <= j < |s| ensures !StartsWith(s[j..], "**") {
      if 0 < j < |s| - 1 {
        assert s[j] == body[j - 1];
        assert s[j..][0] == s[j];
      } else if j == 0 {
        assert s[1] == body[0];
        assert s[j..][1] == s[1];
      }
    }
    ReplaceSpansIdentity(s, "**", false, 0, "<strong>", "</strong>");
    SpanOfPlain("*", body, false, 0, "<em>", "</em>");
    StillNoMarkup("<em>", body, "</em>");
    NoStartOfMissing("<em>" + body + "</em>", "`");
    ReplaceSpansIdentity("<em>" + body + "</em>", "`", true, 1, "<code>", "</code>");
  }

  /** `` `words` `` becomes inline code when the words are not empty. */
  lemma {:induction false} CodeSpan(body: string)
    requires Plain(body) && body != []
    ensures ApplyInlineFormatting("`" + body + "`") == "<code>" + body + "</code>"
  {
    PlainHasNoMarkup(body);
    var s := "`" + body + "`";
    assert '*' !in s by {
      forall j | 0 <= j < |s| ensures s[j] != '*' {
        if 0 < j < |s| - 1 { assert s[j] == body[j - 1]; }
      }
    }
    NoStartOfMissing(s, "**");
    ReplaceSpansIdentity(s, "**", false, 0, "<strong>", "</strong>");
    NoStartOfMissing(s, "*");
    ReplaceSpansIdentity(s, "*", false, 0, "<em>", "</em>");
    SpanOfPlain("`", body, true, 1, "<code>", "</code>");
  }

  // ----- blocks -----

  datatype ListKind = Ul | Ol

  /** One piece `parseMarkdown` appends to `html`; `Paragraph` holds the buffered lines. */
  datatype Block =
    | CodeOpen
    | CodeClose
    | CodeText(line: string)
    | ListOpen(kind: ListKind)
    | ListClose(kind: ListKind)
    | ListItem(text: string)
    | Paragraph(lines: seq<string>)

  function TagName(kind: ListKind): string {
    match kind
    case Ul => "ul"
    case Ol => "ol"
  }

  /** `s.replace(/c/g, by)` for a one-character pattern. */
  function ReplaceChar(s: string, c: char, rep: string): (r: string)
    ensures c !in s ==> r == s
    ensures c !in rep ==> c !in r
    ensures forall x :: x in r ==> x in s || x in rep
    decreases |s|
  {
    if s == [] then []
    else (if s[0] == c then rep else [s[0]]) + ReplaceChar(s[1..], c, rep)
  }

  /** Replacement works character by character: a matching character becomes the replacement
      and any other character stays as it is. */
  lemma {:induction false} ReplaceCharOne(x: char, c: char, rep: string)
    ensures ReplaceChar([x], c, rep) == if x == c then rep else [x]
  {
    assert [x][1..] == [];
  }

  /** Replacing in a concatenation is replacing in each part. */
  lemma {:induction false} ReplaceCharAppend(a: string, b: string, c: char, rep: string)
    ensures ReplaceChar(a + b, c, rep) == ReplaceChar(a, c, rep) + ReplaceChar(b, c, rep)
    decreases |a|
  {
    if a == [] {
      assert a + b == b;
    } else {
      assert (a + b)[0] == a[0];
      assert (a + b)[1..] == a[1..] + b;
      ReplaceCharAppend(a[1..], b, c, rep);
    }
  }

  /** A code line as it is written out: `<` and then `>` replaced by their entities. */
  function Escape(line: string): string {
    ReplaceChar(ReplaceChar(line, '<', "&lt;"), '>', "&gt;")
  }

  /** An escaped line holds no angle bracket, and a line without one is written as it is. */
  lemma {:induction false} EscapeRemovesBrackets(line: string)
    ensures '<' !in Escape(line) && '>' !in Escape(line)
    ensures '<' !in line && '>' !in line ==> Escape(line) == line
  {
    var once := ReplaceChar(line, '<', "&lt;");
    assert '>' !in "&lt;" && '<' !in "&lt;" && '<' !in "&gt;" && '>' !in "&gt;";
    assert '<' !in once;
  }

  /** Escaping one character: each bracket becomes its entity, any other character stays. */
  lemma {:induction false} EscapeChar(x: char)
    ensures Escape([x]) == if x == '<' then "&lt;" else if x == '>' then "&gt;" else [x]
  {
    ReplaceCharOne(x, '<', "&lt;");
    if x == '<' {
      assert '>' !in "&lt;";
    } else {
      ReplaceCharOne(x, '>', "&gt;");
    }
  }

  /** Escaping works character by character: a line is escaped part by part. */
  lemma {:induction false} EscapeAppend(a: string, b: string)
    ensures Escape(a + b) == Escape(a) + Escape(b)
  {
    ReplaceCharAppend(a, b, '<', "&lt;");
    ReplaceCharAppend(ReplaceChar(a, '<', "&lt;"), ReplaceChar(b, '<', "&lt;"), '>', "&gt;");
  }

  /** The HTML text of one block. */
  function BlockText(b: Block): string {
    match b
    case CodeOpen => "<pre><code>"
    case CodeClose => "</code></pre>"
    case CodeText(line) => Escape(line) + "\n"
    case ListOpen(kind) => "<blockquote><" + TagName(kind) + ">"
    case ListClose(kind) => "</" + TagName(kind) + "></blockquote>"
    case ListItem(text) => "<li>" + ApplyInlineFormatting(text) + "</li>"
    case Paragraph(lines) => "<p>" + ApplyInlineFormatting(Join(lines, "<br />")) + "</p>"
  }

  /** The blocks' texts, in order. */
  function Render(blocks: seq<Block>): string
    decreases |blocks|
  {
    if blocks == [] then "" else Render(blocks[..|blocks| - 1]) + BlockText(blocks[|blocks| - 1])
  }

  lemma {:induction false} RenderAppend(blocks: seq<Block>, b: Block)
    ensures Render(blocks + [b]) == Render(blocks) + BlockText(b)
  {
    assert (blocks + [b])[..|blocks|] == blocks;
  }

  // ----- line classification -----

  /** What `(.*)` captures: the text up to the first line terminator. */
  function LineText(s: string): (r: string)
    ensures |r| <= |s| && r == s[..|r|]
    ensures forall j :: 0 <= j < |r| ==> !IsLineTerminator(r[j])
    ensures |r| < |s| ==> IsLineTerminator(s[|r|])
    decreases |s|
  {
    if s == [] || IsLineTerminator(s[0]) then [] else [s[0]] + LineText(s[1..])
  }

  /** A capture that meets no line terminator takes the whole rest of the line. */
  lemma {:induction false} LineTextWhole(s: string)
    requires forall j :: 0 <= j < |s| ==> !IsLineTerminator(s[j])
    ensures LineText(s) == s
  {
  }

  /** `\d`. */
  predicate IsDigit(c: char) {
    '0' <= c <= '9'
  }

  /** Length of the leading run of digits. */
  function DigitRun(s: string): (n: nat)
    ensures n <= |s| && (forall j :: 0 <= j < n ==> IsDigit(s[j]))
    ensures n < |s| ==> !IsDigit(s[n])
    decreases |s|
  {
    if s != [] && IsDigit(s[0]) then 1 + DigitRun(s[1..]) else 0
  }

  /** The list item a trimmed line opens, if any: `^(?:[-*+]\s)(.*)` gives a bullet item and
      `^(\d+\.\s)(.*)` a numbered one. */
  function ItemOf(t: string): (r: Option<(ListKind, string)>)
    ensures r.Some? ==> |t| >= 2 && (t[0] == '-' || t[0] == '*' || t[0] == '+' || IsDigit(t[0]))
    ensures r.Some? ==> (r.value.0 == Ul <==> !IsDigit(t[0]))
  {
    if |t| >= 2 && (t[0] == '-' || t[0] == '*' || t[0] == '+') && IsSpace(t[1]) then
      Some((Ul, LineText(t[2..])))
    else
      var d := DigitRun(t);
      if 1 <= d && d + 2 <= |t| && t[d] == '.' && IsSpace(t[d + 1]) then Some((Ol, LineText(t[d + 2..])))
      else None
  }

  /** `- ` opens a bullet item and `12. ` a numbered one. */
  lemma {:induction false} ItemExamples()
    ensures ItemOf("- milk") == Some((Ul, "milk"))
    ensures ItemOf("12. step") == Some((Ol, "step"))
  {
    assert "- milk"[2..] == "milk";
    LineTextWhole("milk");
    assert DigitRun("12. step") == 2 by {
      assert "12. step"[1..][1..] == ". step";
    }
    assert "12. step"[4..] == "step";
    LineTextWhole("step");
  }

  /** A marker needs white space after it, and a number needs its dot. */
  lemma {:induction false} NotItems()
    ensures ItemOf("**bold**") == None
    ensures ItemOf("-dash") == None
    ensures ItemOf("3)x") == None
  {
    assert DigitRun("**bold**") == 0;
    assert DigitRun("-dash") == 0;
    assert DigitRun("3)x") == 1 by {
      assert "3)x"[1..] == ")x";
    }
  }

  /** A line that opens or closes a code block. */
  predicate IsFence(line: string) {
    StartsWith(Trim(line), "```")
  }

  lemma {:induction false} ItemsAreNotFences(line: string)
    requires ItemOf(Trim(line)).Some?
    ensures !IsFence(line)
  {
    var t := Trim(line);
    assert t[0] != '`';
    if |t| >= 3 {
      assert t[..3][0] == t[0];
    }
  }

  // ----- the converter as a state machine -----

  /** The converter's state: the blocks written so far, `listType`, `inCodeBlock` and
      `paragraphBuffer`. */
  datatype Parse = Parse(out: seq<Block>, list: Option<ListKind>, inCode: bool, para: seq<string>)

  const Start := Parse([], None, false, [])

  /** `flushParagraph`. */
  function ParagraphFlushed(st: Parse): Parse {
    if st.para == [] then st else st.(out := st.out + [Paragraph(st.para)], para := [])
  }

  /** `flushList`. */
  function ListFlushed(st: Parse): Parse {
    match st.list
    case None => st
    case Some(kind) => st.(out := st.out + [ListClose(kind)], list := None)
  }

  /** A list item of `kind`: the paragraph is flushed, a list of another kind is closed and one
      of `kind` opened, then the item is written. */
  function ItemAdded(st: Parse, kind: ListKind, text: string): Parse {
    var p := ParagraphFlushed(st);
    var q :=
      if p.list == Some(kind) then p
      else var f := ListFlushed(p); f.(out := f.out + [ListOpen(kind)], list := Some(kind));
    q.(out := q.out + [ListItem(text)])
  }

  /** A fence line: flush, then open or close the code block. */
  function Toggled(st: Parse): Parse {
    var f := ListFlushed(ParagraphFlushed(st));
    if f.inCode then f.(out := f.out + [CodeClose], inCode := false)
    else f.(out := f.out + [CodeOpen], inCode := true)
  }

  /** A line outside code that is not a fence; `t` is the trimmed line. */
  function TextLineAdded(st: Parse, line: string, t: string): Parse {
    match ItemOf(t)
    case Some((kind, text)) => ItemAdded(st, kind, text)
    case None =>
      if t == [] then ListFlushed(ParagraphFlushed(st))
      else var f := ListFlushed(st); f.(para := f.para + [line])
  }

  /** One iteration of the loop over the lines. */
  function LineAdded(st: Parse, line: string): Parse {
    var t := Trim(line);
    if StartsWith(t, "```") then Toggled(st)
    else if st.inCode then st.(out := st.out + [CodeText(line)])
    else TextLineAdded(st, line, t)
  }

  function LinesAdded(st: Parse, lines: seq<string>): Parse
    decreases |lines|
  {
    if lines == [] then st else LineAdded(LinesAdded(st, lines[..|lines| - 1]), lines[|lines| - 1])
  }

  /** After the loop: flush the paragraph and the list, and close an unclosed code block. */
  function Finished(st: Parse): Parse {
    var f := ListFlushed(ParagraphFlushed(st));
    if f.inCode then f.(out := f.out + [CodeClose], inCode := false) else f
  }

  /** The blocks `parseMarkdown` writes for `text`. */
  function Blocks(text: string): seq<Block> {
    Finished(LinesAdded(Start, Split(text, '\n'))).out
  }

  // ----- nesting -----

  /** Where the writer is in the HTML it has produced. */
  datatype Context = Outside | InList(kind: ListKind) | InCode

  /** The blocks allowed in each context and the context they lead to: code lines only inside
      code, items only inside a list, a list closed with its own kind, paragraphs only outside. */
  function Next(c: Context, b: Block): Option<Context> {
    match c
    case Outside =>
      (match b
       case CodeOpen => Some(InCode)
       case ListOpen(kind) => Some(InList(kind))
       case Paragraph(lines) => if lines != [] then Some(Outside) else None
       case _ => None)
    case InCode =>
      (match b
       case CodeText(_) => Some(InCode)
       case CodeClose => Some(Outside)
       case _ => None)
    case InList(kind) =>
      (match b
       case ListItem(_) => Some(InList(kind))
       case ListClose(k) => if k == kind then Some(Outside) else None
       case _ => None)
  }

  function Trace(blocks: seq<Block>): Option<Context>
    decreases |blocks|
  {
    if blocks == [] then Some(Outside)
    else match Trace(blocks[..|blocks| - 1])
      case None => None
      case Some(c) => Next(c, blocks[|blocks| - 1])
  }

  lemma {:induction false} TraceAppend(blocks: seq<Block>, b: Block)
    requires Trace(blocks).Some?
    ensures Trace(blocks + [b]) == Next(Trace(blocks).value, b)
  {
    assert (blocks + [b])[..|blocks|] == blocks;
  }

  function ContextOf(st: Parse): Context {
    if st.inCode then InCode
    else match st.list
      case Some(kind) => InList(kind)
      case None => Outside
  }

  /** The loop invariant: a buffered paragraph means no open list, an open code block means no
      buffered paragraph and no open list, and the blocks written lead to the context the flags
      describe. */
  predicate Consistent(st: Parse) {
    && (st.para != [] ==> st.list == None)
    && (st.inCode ==> st.para == [] && st.list == None)
    && Trace(st.out) == Some(ContextOf(st))
  }

  lemma {:induction false} ParagraphFlushedConsistent(st: Parse)
    requires Consistent(st)
    ensures var p := ParagraphFlushed(st); Consistent(p) && p.para == [] && p.list == st.list && p.inCode == st.inCode
  {
    if st.para != [] {
      TraceAppend(st.out, Paragraph(st.para));
    }
  }

  lemma {:induction false} ListFlushedConsistent(st: Parse)
    requires Consistent(st)
    ensures var f := ListFlushed(st); Consistent(f) && f.list == None && f.para == st.para && f.inCode == st.inCode
  {
    if st.list.Some? {
      TraceAppend(st.out, ListClose(st.list.value));
    }
  }

  lemma {:induction false} ItemAddedConsistent(st: Parse, kind: ListKind, text: string)
    requires Consistent(st) && !st.inCode
    ensures var r := ItemAdded(st, kind, text); Consistent(r) && r.list == Some(kind) && r.para == [] && !r.inCode
  {
    var p := ParagraphFlushed(st);
    ParagraphFlushedConsistent(st);
    if p.list == Some(kind) {
      TraceAppend(p.out, ListItem(text));
    } else {
      var f := ListFlushed(p);
      ListFlushedConsistent(p);
      TraceAppend(f.out, ListOpen(kind));
      TraceAppend(f.out + [ListOpen(kind)], ListItem(text));
    }
  }

  lemma {:induction false} ToggledConsistent(st: Parse)
    requires Consistent(st)
    ensures Consistent(Toggled(st))
  {
    ParagraphFlushedConsistent(st);
    ListFlushedConsistent(ParagraphFlushed(st));
    var f := ListFlushed(ParagraphFlushed(st));
    TraceAppend(f.out, if f.inCode then CodeClose else CodeOpen);
  }

  lemma {:induction false} TextLineAddedConsistent(st: Parse, line: string, t: string)
    requires Consistent(st) && !st.inCode
    ensures Consistent(TextLineAdded(st, line, t))
  {
    match ItemOf(t) {
      case Some((kind, text)) =>
        ItemAddedConsistent(st, kind, text);
      case None =>
        ParagraphFlushedConsistent(st);
        ListFlushedConsistent(ParagraphFlushed(st));
        ListFlushedConsistent(st);
    }
  }

  /** Each line keeps the invariant. */
  lemma {:induction false} LineAddedConsistent(st: Parse, line: string)
    requires Consistent(st)
    ensures Consistent(LineAdded(st, line))
  {
    var t := Trim(line);
    if StartsWith(t, "```") {
      ToggledConsistent(st);
      assert LineAdded(st, line) == Toggled(st);
    } else if st.inCode {
      TraceAppend(st.out, CodeText(line));
      assert LineAdded(st, line) == st.(out := st.out + [CodeText(line)]);
    } else {
      TextLineAddedConsistent(st, line, t);
      assert LineAdded(st, line) == TextLineAdded(st, line, t);
    }
  }

  lemma {:induction false} LinesAddedConsistent(lines: seq<string>)
    ensures Consistent(LinesAdded(Start, lines))
    decreases |lines|
  {
    if lines != [] {
      LinesAddedConsistent(lines[..|lines| - 1]);
      LineAddedConsistent(LinesAdded(Start, lines[..|lines| - 1]), lines[|lines| - 1]);
    }
  }

  /** The end of the conversion leaves nothing open. */
  lemma {:induction false} FinishedCloses(st: Parse)
    requires Consistent(st)
    ensures var f := Finished(st); Consistent(f) && f.list == None && !f.inCode && f.para == []
    ensures Trace(Finished(st).out) == Some(Outside)
  {
    ParagraphFlushedConsistent(st);
    ListFlushedConsistent(ParagraphFlushed(st));
    var f := ListFlushed(ParagraphFlushed(st));
    if f.inCode {
      TraceAppend(f.out, CodeClose);
    }
  }

  /** Whatever the text, every code block and every list the converter opens is closed, items
      appear only inside a list, code lines only inside a code block, and paragraphs only
      outside both. */
  lemma {:induction false} BlocksWellNested(text: string)
    ensures Trace(Blocks(text)) == Some(Outside)
  {
    LinesAddedConsistent(Split(text, '\n'));
    FinishedCloses(LinesAdded(Start, Split(text, '\n')));
  }

  // ----- what each kind of line does -----

  /** A fence line flushes the paragraph and the list, then opens or closes a code block; the
      rest of the line is discarded. */
  lemma {:induction false} FenceToggles(st: Parse, line: string)
    requires Consistent(st) && IsFence(line)
    ensures var r := LineAdded(st, line);
      && r.out == ListFlushed(ParagraphFlushed(st)).out + [if st.inCode then CodeClose else CodeOpen]
      && r.inCode == !st.inCode && r.list == None && r.para == []
    ensures forall other :: IsFence(other) ==> LineAdded(st, other) == LineAdded(st, line)
  {
    ParagraphFlushedConsistent(st);
    ListFlushedConsistent(ParagraphFlushed(st));
  }

  /** Inside a code block any other line is written escaped, with no inline formatting. */
  lemma {:induction false} CodeLineVerbatim(st: Parse, line: string)
    requires st.inCode && !IsFence(line)
    ensures LineAdded(st, line) == st.(out := st.out + [CodeText(line)])
    ensures BlockText(CodeText(line)) == Escape(line) + "\n"
  {
  }

  /** Outside code, a blank line flushes the paragraph and the list and writes nothing else. */
  lemma {:induction false} BlankLineFlushes(st: Parse, line: string)
    requires !st.inCode && AllSpace(line)
    ensures LineAdded(st, line) == ListFlushed(ParagraphFlushed(st))
  {
    assert Trim(line) == [];
  }

  /** The blocks a paragraph buffer flushes to. */
  function FlushedParagraph(para: seq<string>): seq<Block> {
    if para == [] then [] else [Paragraph(para)]
  }

  /** The blocks written before an item of `kind`: nothing when a list of that kind is open, the
      old list's close and the new list's open when another kind is open. */
  function ListSwitch(list: Option<ListKind>, kind: ListKind): seq<Block> {
    match list
    case None => [ListOpen(kind)]
    case Some(k) => if k == kind then [] else [ListClose(k), ListOpen(kind)]
  }

  lemma {:induction false} ItemLineAddsItem(st: Parse, line: string, kind: ListKind, text: string)
    requires !st.inCode && ItemOf(Trim(line)) == Some((kind, text))
    ensures LineAdded(st, line) == ItemAdded(st, kind, text)
  {
    ItemsAreNotFences(line);
  }

  lemma {:induction false} ItemAddedBlocks(st: Parse, kind: ListKind, text: string)
    requires Consistent(st) && !st.inCode
    ensures var r := ItemAdded(st, kind, text);
      && r.out == st.out + FlushedParagraph(st.para) + ListSwitch(st.list, kind) + [ListItem(text)]
      && r.list == Some(kind) && r.para == [] && !r.inCode
  {
    var p := ParagraphFlushed(st);
    assert p.out == st.out + FlushedParagraph(st.para) && p.list == st.list;
    if st.list != Some(kind) {
      assert ListFlushed(p).out == p.out + (if st.list.Some? then [ListClose(st.list.value)] else []);
    }
  }

  /** A list item line: consecutive items of one kind share a list, a change of kind closes the
      old list first. */
  lemma {:induction false} ItemLine(st: Parse, line: string, kind: ListKind, text: string)
    requires Consistent(st) && !st.inCode
    requires ItemOf(Trim(line)) == Some((kind, text))
    ensures var r := LineAdded(st, line);
      && r.out == st.out + FlushedParagraph(st.para) + ListSwitch(st.list, kind) + [ListItem(text)]
      && r.list == Some(kind) && r.para == [] && !r.inCode
  {
    ItemLineAddsItem(st, line, kind, text);
    ItemAddedBlocks(st, kind, text);
  }

  /** A line that is neither a fence, an item nor blank is buffered untrimmed and closes any
      open list. */
  lemma {:induction false} PlainLine(st: Parse, line: string)
    requires !st.inCode && !IsFence(line) && ItemOf(Trim(line)) == None && !AllSpace(line)
    ensures var r := LineAdded(st, line);
      && r.out == st.out + (if st.list.Some? then [ListClose(st.list.value)] else [])
      && r.para == st.para + [line] && r.list == None && !r.inCode
  {
  }

  /** Prose: one line that the converter buffers. */
  predicate Prose(line: string) {
    '\n' !in line && !IsFence(line) && ItemOf(Trim(line)) == None && !AllSpace(line)
  }

  /** Feeding one more line. */
  lemma {:induction false} LinesAddedNext(st: Parse, lines: seq<string>, i: nat)
    requires i < |lines|
    ensures LinesAdded(st, lines[..i + 1]) == LineAdded(LinesAdded(st, lines[..i]), lines[i])
  {
    assert lines[..i + 1][..i] == lines[..i];
  }

  lemma {:induction false} PrefixSnoc(para: seq<string>, lines: seq<string>)
    requires lines != []
    ensures para + lines[..|lines| - 1] + [lines[|lines| - 1]] == para + lines
  {
    assert lines[..|lines| - 1] + [lines[|lines| - 1]] == lines;
  }

  lemma {:induction false} ProseStep(st: Parse, line: string)
    requires !st.inCode && st.list == None && Prose(line)
    ensures LineAdded(st, line) == st.(para := st.para + [line])
  {
    PlainLine(st, line);
  }

  lemma {:induction false} ProseBuffered(st: Parse, lines: seq<string>)
    requires !st.inCode && st.list == None
    requires forall i :: 0 <= i < |lines| ==> Prose(lines[i])
    ensures LinesAdded(st, lines) == st.(para := st.para + lines)
    decreases |lines|
  {
    if lines != [] {
      var init := lines[..|lines| - 1];
      var last := lines[|lines| - 1];
      forall i | 0 <= i < |init| ensures Prose(init[i]) {
        assert init[i] == lines[i];
      }
      ProseBuffered(st, init);
      ProseStep(st.(para := st.para + init), last);
      PrefixSnoc(st.para, lines);
    }
  }

  /** Consecutive prose lines become one paragraph, the lines kept untrimmed and joined by
      `<br />`. */
  lemma {:induction false} ProseParagraph(lines: seq<string>)
    requires lines != [] && forall i :: 0 <= i < |lines| ==> Prose(lines[i])
    ensures Blocks(Join(lines, "\n")) == [Paragraph(lines)]
    ensures Render(Blocks(Join(lines, "\n"))) == "<p>" + ApplyInlineFormatting(Join(lines, "<br />")) + "</p>"
  {
    forall i | 0 <= i < |lines| ensures '\n' !in lines[i] {
      assert Prose(lines[i]);
    }
    SplitJoin(lines, '\n');
    ProseBuffered(Start, lines);
    assert [] + lines == lines;
    assert Blocks(Join(lines, "\n")) == [Paragraph(lines)];
    RenderParagraph(lines);
  }

  lemma {:induction false} RenderParagraph(lines: seq<string>)
    requires lines != []
    ensures Render([Paragraph(lines)]) == "<p>" + ApplyInlineFormatting(Join(lines, "<br />")) + "</p>"
  {
    var p := "<p>" + ApplyInlineFormatting(Join(lines, "<br />")) + "</p>";
    RenderAppend([], Paragraph(lines));
    assert [] + [Paragraph(lines)] == [Paragraph(lines)];
    assert BlockText(Paragraph(lines)) == p;
    assert Render([]) + p == p;
  }

  // ----- the converter's loop -----

  /** The local state of `parseMarkdown` that the `flushParagraph` and `flushList` closures and
      the loop body update; `blocks` records, for the proof, the pieces `html` is made of. */
  class MarkdownWriter {
    var html: string
    var listType: Option<ListKind>
    var inCodeBlock: bool
    var paragraphBuffer: seq<string>
    ghost var blocks: seq<Block>

    ghost predicate Valid()
      reads this
    {
      html == Render(blocks)
    }

    ghost function State(): Parse
      reads this
    {
      Parse(blocks, listType, inCodeBlock, paragraphBuffer)
    }

    constructor()
      ensures Valid() && State() == Start
    {
      html := "";
      listType := None;
      inCodeBlock := false;
      paragraphBuffer := [];
      blocks := [];
    }

    /** `html += ...` with the text of one block. */
    method Write(b: Block)
      requires Valid()
      modifies this
      ensures Valid() && blocks == old(blocks) + [b] && html == old(html) + BlockText(b)
      ensures listType == old(listType) && inCodeBlock == old(inCodeBlock)
      ensures paragraphBuffer == old(paragraphBuffer)
    {
      RenderAppend(blocks, b);
      html := html + BlockText(b);
      blocks := blocks + [b];
    }

    method FlushParagraph()
      requires Valid()
      modifies this
      ensures Valid() && State() == ParagraphFlushed(old(State()))
    {
      if |paragraphBuffer| > 0 {
        Write(Paragraph(paragraphBuffer));
        paragraphBuffer := [];
      }
    }

    method FlushList()
      requires Valid()
      modifies this
      ensures Valid() && State() == ListFlushed(old(State()))
    {
      if listType.Some? {
        Write(ListClose(listType.value));
        listType := None;
      }
    }

    /** The fence branch: flush, then open or close the code block. */
    method ToggleCode()
      requires Valid()
      modifies this
      ensures Valid() && State() == Toggled(old(State()))
    {
      FlushParagraph();
      FlushList();
      if inCodeBlock {
        Write(CodeClose);
        inCodeBlock := false;
      } else {
        Write(CodeOpen);
        inCodeBlock := true;
      }
    }

    /** The list-item branches. */
    method AddItem(kind: ListKind, text: string)
      requires Valid()
      modifies this
      ensures Valid() && State() == ItemAdded(old(State()), kind, text)
    {
      FlushParagraph();
      if listType != Some(kind) {
        FlushList();
        listType := Some(kind);
        Write(ListOpen(kind));
      }
      Write(ListItem(text));
    }

    /** The body of the loop over the lines. */
    method AddLine(line: string)
      requires Valid()
      modifies this
      ensures Valid() && State() == LineAdded(old(State()), line)
    {
      var trimmed := Trim(line);
      if StartsWith(trimmed, "```") {
        ToggleCode();
      } else if inCodeBlock {
        Write(CodeText(line));
      } else {
        var item := ItemOf(trimmed);
        if item.Some? {
          AddItem(item.value.0, item.value.1);
        } else if trimmed == [] {
          FlushParagraph();
          FlushList();
        } else {
          FlushList();
          paragraphBuffer := paragraphBuffer + [line];
        }
      }
    }

    /** The loop over the lines. */
    method AddLines(lines: seq<string>)
      requires Valid()
      modifies this
      ensures Valid() && State() == LinesAdded(old(State()), lines)
    {
      ghost var start := State();
      for i := 0 to |lines|
        invariant Valid() && State() == LinesAdded(start, lines[..i])
      {
        LinesAddedNext(start, lines, i);
        AddLine(lines[i]);
      }
      assert lines[..|lines|] == lines;
    }

    /** After the loop. */
    method Finish()
      requires Valid()
      modifies this
      ensures Valid() && State() == Finished(old(State()))
    {
      FlushParagraph();
      FlushList();
      if inCodeBlock {
        Write(CodeClose);
        inCodeBlock := false;
      }
    }
  }

  /** `parseMarkdown`: the text is split on `\n` and each line fed to the writer in order. */
  method ParseMarkdown(text: string) returns (html: string)
    ensures html == Render(Blocks(text))
  {
    var lines := Split(text, '\n');
    var writer := new MarkdownWriter();
    writer.AddLines(lines);
    writer.Finish();
    html := writer.html;
  }
}
