/** frontend/src/lib/multimodal-utils.ts: printing an uploaded text file as a fenced code block,
and reading it back with the rules of section 4.5 (fenced code blocks) of the CommonMark spec. */
module MarkdownFence {
  const TEXT_FILE_MAX_CHARS := 60_000

  function Ticks(n: nat): (s: string)
    ensures |s| == n && forall i :: 0 <= i < n ==> s[i] == '`'
  {
    seq(n, _ => '`')
  }

  /** The end of the run of `mark` from position `i`. */
  function RunEnd(s: string, mark: char, i: nat): (n: nat)
    requires i <= |s|
    ensures i <= n <= |s| && (forall k :: i <= k < n ==> s[k] == mark) && (n < |s| ==> s[n] != mark)
    decreases |s| - i
  {
    if i < |s| && s[i] == mark then RunEnd(s, mark, i + 1) else i
  }

  function LeadingRun(s: string, mark: char): nat { RunEnd(s, mark, 0) }

  function LeadingTicks(s: string): nat { LeadingRun(s, '`') }

  function Max(a: nat, b: nat): nat { if a > b then a else b }

  /** The matches of /`{3,}/g reduced to the longest length, from 2. */
  function LongestFence(s: string): (n: nat)
    ensures n >= 2
    decreases |s|
  {
    if s == "" then 2
    else
      var r := LeadingTicks(s);
      if r == 0 then LongestFence(s[1..])
      else if r >= 3 then Max(r, LongestFence(s[r..]))
      else LongestFence(s[r..])
  }

  function CodeFence(code: string): string { Ticks(LongestFence(code) + 1) }

  predicate AllTicks(s: string) { forall i :: 0 <= i < |s| ==> s[i] == '`' }

  /** The fence is longer than every run of backticks in the text. */
  lemma {:induction false} FenceOutlastsRuns(code: string, i: nat, j: nat)
    requires i <= j <= |code| && AllTicks(code[i..j])
    ensures j - i < |CodeFence(code)|
    decreases |code|
  {
    if i < j {
      var r := LeadingTicks(code);
      var skip := if r == 0 then 1 else r;
      if i < skip {
        assert code[i..j][0] == code[i];
        assert forall k :: i <= k < j ==> code[i..j][k - i] == code[k];
      } else {
        assert code[skip..][i - skip..j - skip] == code[i..j];
        FenceOutlastsRuns(code[skip..], i - skip, j - skip);
      }
    }
  }

  // ---- A CommonMark reader -----------------------------------------------------------------

  predicate IsLineEnd(c: char) { c == '\n' || c == '\r' }

  predicate OneLine(s: string) { forall i :: 0 <= i < |s| ==> !IsLineEnd(s[i]) }

  /** Position of the first line ending from position `i`, or the length. */
  function LineEnd(s: string, i: nat): (n: nat)
    requires i <= |s|
    ensures i <= n <= |s| && (forall k :: i <= k < n ==> !IsLineEnd(s[k])) && (n < |s| ==> IsLineEnd(s[n]))
    decreases |s| - i
  {
    if i == |s| || IsLineEnd(s[i]) then i else LineEnd(s, i + 1)
  }

  function LineLength(s: string): nat { LineEnd(s, 0) }

  /** Where the next line starts: a line ends with a newline, a carriage return, or both in this order. */
  function NextLine(s: string): (n: nat)
    ensures LineLength(s) <= n <= |s| && n <= LineLength(s) + 2
    ensures s != "" ==> n > 0
  {
    var len := LineLength(s);
    if len == |s| then len
    else if s[len] == '\r' && len + 1 < |s| && s[len + 1] == '\n' then len + 2
    else len + 1
  }

  function FirstLine(s: string): string { s[..LineLength(s)] }

  function Indent(s: string): (n: nat)
    ensures n <= |s| && n <= 3
  {
    if s == "" || s[0] != ' ' then 0
    else if |s| == 1 || s[1] != ' ' then 1
    else if |s| == 2 || s[2] != ' ' then 2
    else 3
  }

  predicate IsBlank(c: char) { c == ' ' || c == '\t' }

  predicate Blank(s: string) { forall i :: 0 <= i < |s| ==> IsBlank(s[i]) }

  /** An opening fence: backticks or tildes, how many, and how far they are indented. */
  datatype Fence = Fence(mark: char, count: nat, indent: nat)

  /** At least three backticks or three tildes, indented by at most three spaces, and any info string; after
      backticks it has no backtick. */
  predicate IsOpening(line: string) {
    var rest := line[Indent(line)..];
    && rest != "" && (rest[0] == '`' || rest[0] == '~')
    && var r := LeadingRun(rest, rest[0]);
       r >= 3 && (rest[0] == '`' ==> '`' !in rest[r..])
  }

  function FenceOf(line: string): Fence {
    var rest := line[Indent(line)..];
    if rest == "" then Fence('`', 0, 0) else Fence(rest[0], LeadingRun(rest, rest[0]), Indent(line))
  }

  /** At least as many of the same character, indented by at most three spaces, with nothing but blanks after. */
  predicate IsClosing(line: string, f: Fence) {
    var rest := line[Indent(line)..];
    var r := LeadingRun(rest, f.mark);
    r >= f.count && Blank(rest[r..])
  }

  /** Length of the lines before the closing fence or the end of the document. */
  function CodeLength(s: string, f: Fence): (k: nat)
    ensures k <= |s|
    decreases |s|
  {
    if s == "" || IsClosing(FirstLine(s), f) then 0
    else NextLine(s) + CodeLength(s[NextLine(s)..], f)
  }

  /** The code lines lose up to `indent` leading spaces each; `left` may still go from the current line. */
  function Unindented(s: string, indent: nat, left: nat): string {
    if s == "" then ""
    else if s[0] == ' ' && left > 0 then Unindented(s[1..], indent, left - 1)
    else [s[0]] + Unindented(s[1..], indent, if IsLineEnd(s[0]) then indent else 0)
  }

  /** Length of the lines before the first opening fence, or of the document. */
  function BlockStart(s: string): (k: nat)
    ensures k <= |s|
    decreases |s|
  {
    if s == "" || IsOpening(FirstLine(s)) then 0
    else NextLine(s) + BlockStart(s[NextLine(s)..])
  }

  datatype Block = NoBlock | CodeBlock(info: string, code: string, rest: string)

  /** A block with the code lines `s[..k]` and a closing line after them. */
  function CodeUpTo(info: string, s: string, k: nat, indent: nat): Block
    requires k <= |s|
  {
    CodeBlock(info, Unindented(s[..k], indent, indent), s[k..][NextLine(s[k..])..])
  }

  /** A block whose code lines start `s`. */
  function ReadCode(info: string, s: string, f: Fence): Block { CodeUpTo(info, s, CodeLength(s, f), f.indent) }

  /** An info string without the blanks around it. */
  function Trimmed(s: string): string
    decreases |s|
  {
    if s != "" && IsBlank(s[0]) then Trimmed(s[1..])
    else if s != "" && IsBlank(s[|s| - 1]) then Trimmed(s[..|s| - 1])
    else s
  }

  /** The block that starts with the first line of `s`; the info string is what follows the fence. */
  function ReadBlock(s: string): Block {
    var line := FirstLine(s);
    var f := FenceOf(line);
    var fenceLine := line[Indent(line)..];
    ReadCode(Trimmed(fenceLine[LeadingRun(fenceLine, f.mark)..]), s[NextLine(s)..], f)
  }

  function BlockAt(s: string, k: nat): Block
    requires k <= |s|
  {
    if k == |s| then NoBlock else ReadBlock(s[k..])
  }

  /** The first fenced code block of a document. */
  function FirstBlock(s: string): Block { BlockAt(s, BlockStart(s)) }

  // ---- The printer -------------------------------------------------------------------------

  const HEADER := "已上传代码文件："

  const TRUNCATION_NOTICE := "\n\n[文件内容过长，已截取前 60000 个字符。]"

  function ShownText(raw: string): string { if |raw| > TEXT_FILE_MAX_CHARS then raw[..TEXT_FILE_MAX_CHARS] else raw }

  function Notice(raw: string): string { if |raw| > TEXT_FILE_MAX_CHARS then TRUNCATION_NOTICE else "" }

  /** The text of `textFileToContentBlock`. */
  function Printed(name: string, language: string, raw: string): string {
    var text := ShownText(raw);
    var fence := CodeFence(text);
    HEADER + name + "\n\n" + fence + language + "\n" + text + "\n" + fence + Notice(raw)
  }

  // ---- The round trip ----------------------------------------------------------------------

  /** The fence the printer writes. */
  function Plain(n: nat): Fence { Fence('`', n, 0) }

  ghost predicate RunsShorter(s: string, n: nat) {
    forall i, j :: 0 <= i <= j <= |s| && AllTicks(s[i..j]) ==> j - i < n
  }

  lemma RunsOfPart(s: string, n: nat, a: nat, b: nat)
    requires RunsShorter(s, n) && a <= b <= |s|
    ensures RunsShorter(s[a..b], n)
  {
    var t := s[a..b];
    forall i, j | 0 <= i <= j <= |t| && AllTicks(t[i..j]) ensures j - i < n {
      var part := s[a + i..a + j];
      forall k | 0 <= k < |part| ensures part[k] == '`' { assert t[i..j][k] == part[k]; }
      assert AllTicks(part);
    }
  }

  lemma NoClosingInside(line: string, n: nat)
    requires RunsShorter(line, n)
    ensures !IsClosing(line, Plain(n))
  {
    var k := Indent(line);
    var r := LeadingTicks(line[k..]);
    assert AllTicks(line[k..k + r]);
  }

  /** Locating the first line of `t + "\n" + tail`. */
  lemma {:induction false} LineOf(line: string, s: string)
    requires OneLine(line) && line <= s && (|line| < |s| ==> IsLineEnd(s[|line|]))
    ensures LineLength(s) == |line|
    decreases |line|
  {
    if line != "" {
      assert s[0] == line[0];
      LineOf(line[1..], s[1..]);
    }
  }

  function AfterNotice(notice: string): string { if notice == "" then "" else notice[1..] }

  /** A text followed by a newline keeps its first line, and the next one starts at the same place unless
      the new newline ends this one. */
  lemma FirstLineKept(t: string, tail: string)
    ensures FirstLine(t + "\n" + tail) == FirstLine(t)
    ensures var s := t + "\n" + tail; NextLine(s) == NextLine(t) <= |t| || NextLine(s) == |t| + 1
    ensures var s := t + "\n" + tail;
      s[NextLine(s)..] == if NextLine(s) <= |t| then t[NextLine(s)..] + "\n" + tail else tail
  {
    var s, len := t + "\n" + tail, LineLength(t);
    assert s == t + ("\n" + tail);
    assert s[|t|] == '\n';
    assert s[..len] == t[..len];
    LineOf(t[..len], s);
  }

  /** Reading the printed text stops at the closing fence. */
  lemma {:induction false} CodeIsText(t: string, n: nat, notice: string)
    requires n >= 3 && RunsShorter(t, n) && (notice == "" || notice[0] == '\n')
    ensures CodeLength(t + "\n" + (Ticks(n) + notice), Plain(n)) == |t| + 1
    decreases |t|
  {
    hide IsClosing, Ticks, LineEnd, RunsShorter;
    var tail := Ticks(n) + notice;
    var s := t + "\n" + tail;
    FirstLineKept(t, tail);
    RunsOfPart(t, n, 0, LineLength(t));
    assert t[0..LineLength(t)] == FirstLine(t);
    NoClosingInside(FirstLine(t), n);
    if NextLine(s) <= |t| {
      RunsOfPart(t, n, NextLine(s), |t|);
      assert t[NextLine(s)..] == t[NextLine(s)..|t|];
      CodeIsText(t[NextLine(s)..], n, notice);
    } else {
      FenceLine(n, notice);
      assert CodeLength(tail, Plain(n)) == 0;
    }
  }

  lemma FenceLine(n: nat, notice: string)
    requires n >= 3 && (notice == "" || notice[0] == '\n')
    ensures FirstLine(Ticks(n) + notice) == Ticks(n) && IsClosing(Ticks(n), Plain(n))
    ensures (Ticks(n) + notice)[NextLine(Ticks(n) + notice)..] == AfterNotice(notice)
  {
    var s := Ticks(n) + notice;
    LineOf(Ticks(n), s);
    assert s[..n] == Ticks(n);
    assert Ticks(n)[0] == '`' && Ticks(n)[0..] == Ticks(n);
    if notice != "" { assert s[n] == '\n' && s[n + 1..] == notice[1..]; }
  }

  lemma {:induction false} NothingUnindented(s: string)
    ensures Unindented(s, 0, 0) == s
    decreases |s|
  {
    if s != "" {
      NothingUnindented(s[1..]);
      assert [s[0]] + s[1..] == s;
    }
  }

  lemma ReadsBack(info: string, t: string, n: nat, notice: string)
    requires n >= 3 && RunsShorter(t, n) && (notice == "" || notice[0] == '\n')
    ensures ReadCode(info, t + "\n" + (Ticks(n) + notice), Plain(n)) == CodeBlock(info, t + "\n", AfterNotice(notice))
  {
    var s := t + "\n" + (Ticks(n) + notice);
    CodeIsText(t, n, notice);
    FenceLine(n, notice);
    assert s[..|t| + 1] == t + "\n";
    assert s[|t| + 1..] == Ticks(n) + notice;
    NothingUnindented(t + "\n");
  }

  lemma OpeningLine(n: nat, language: string)
    requires n >= 3 && OneLine(language) && '`' !in language
    ensures var line := Ticks(n) + language;
      OneLine(line) && IsOpening(line) && Indent(line) == 0 && line[0..] == line
      && FenceOf(line) == Plain(n) && LeadingTicks(line) == n && line[n..] == language
  {
    var line := Ticks(n) + language;
    assert line[0] == '`' && line[0..] == line;
    assert forall i :: 0 <= i < n ==> line[i] == '`';
    assert n < |line| ==> line[n] == language[0] && language[0] in language;
    assert line[n..] == language;
  }

  /** A document that starts with a line of its own. */
  lemma StartsWithLine(line: string, rest: string)
    requires OneLine(line)
    ensures FirstLine(line + "\n" + rest) == line && (line + "\n" + rest)[NextLine(line + "\n" + rest)..] == rest
  {
    var s := line + "\n" + rest;
    assert s == line + ("\n" + rest);
    LineOf(line, s);
    assert s[..|line|] == line && s[|line| + 1..] == rest;
  }

  /** A printed block at the start of a document. */
  lemma ReadsBlock(n: nat, language: string, text: string, notice: string)
    requires n >= 3 && RunsShorter(text, n) && OneLine(language) && '`' !in language
    requires notice == "" || notice[0] == '\n'
    ensures FirstBlock(Ticks(n) + language + "\n" + (text + "\n" + (Ticks(n) + notice)))
      == CodeBlock(Trimmed(language), text + "\n", AfterNotice(notice))
  {
    var line, body := Ticks(n) + language, text + "\n" + (Ticks(n) + notice);
    var block := line + "\n" + body;
    OpeningLine(n, language);
    StartsWithLine(line, body);
    assert BlockStart(block) == 0 && block[0..] == block;
    ReadsBack(Trimmed(language), text, n, notice);
  }

  /** A header without an opening fence is skipped. */
  lemma {:induction false} SkipHeader(header: string, rest: string)
    requires BlockStart(header) == |header|
    ensures BlockStart(header + "\n" + rest) == |header| + 1 + BlockStart(rest)
    decreases |header|
  {
    var s := header + "\n" + rest;
    FirstLineKept(header, rest);
    assert !IsOpening(FirstLine(header)) by { if header == "" { assert FirstLine("") == ""; } }
    if NextLine(s) <= |header| { SkipHeader(header[NextLine(s)..], rest); }
  }

  /** The first opening fence of a header is the first one of the document. */
  lemma {:induction false} HeaderOpens(header: string, rest: string)
    requires BlockStart(header) < |header|
    ensures BlockStart(header + "\n" + rest) == BlockStart(header)
    decreases |header|
  {
    var s := header + "\n" + rest;
    FirstLineKept(header, rest);
    if !IsOpening(FirstLine(s)) { HeaderOpens(header[NextLine(s)..], rest); }
  }

  lemma FenceRuns(text: string)
    ensures RunsShorter(text, |CodeFence(text)|)
  {
    forall i, j | 0 <= i <= j <= |text| && AllTicks(text[i..j]) ensures j - i < |CodeFence(text)| {
      FenceOutlastsRuns(text, i, j);
    }
  }

  function PrintedBlock(language: string, text: string, notice: string): string {
    var n := |CodeFence(text)|;
    Ticks(n) + language + "\n" + (text + "\n" + (Ticks(n) + notice))
  }

  lemma PrintedShape(name: string, language: string, raw: string)
    ensures Printed(name, language, raw)
      == HEADER + name + "\n" + ("\n" + PrintedBlock(language, ShownText(raw), Notice(raw)))
  {
    hide LongestFence, ShownText, Notice;
    assert "\n\n" == "\n" + "\n";
  }

  lemma BlockAtSuffix(s: string, j: nat, k: nat)
    requires j + k <= |s|
    ensures BlockAt(s, j + k) == BlockAt(s[j..], k)
  {
    assert s[j..][k..] == s[j + k..];
  }

  lemma FirstBlockOfSuffix(s: string, j: nat)
    requires j <= |s| && BlockStart(s) == j + BlockStart(s[j..])
    ensures FirstBlock(s) == FirstBlock(s[j..])
  {
    hide BlockAt, BlockStart;
    BlockAtSuffix(s, j, BlockStart(s[j..]));
  }

  lemma SkipHeaderAndBlank(header: string, block: string)
    requires BlockStart(header) == |header|
    ensures BlockStart(header + "\n" + ("\n" + block)) == |header| + 2 + BlockStart(block)
  {
    assert "" + "\n" + block == "\n" + block;
    SkipHeader("", block);
    SkipHeader(header, "\n" + block);
  }

  lemma BlockBehind(header: string, block: string)
    ensures (header + "\n" + ("\n" + block))[|header| + 2..] == block
  {
    var before := header + "\n\n";
    assert header + "\n" + ("\n" + block) == before + block;
  }

  /** After a header without an opening fence the printed block is read back. */
  lemma HeaderThenBlock(header: string, block: string)
    requires BlockStart(header) == |header|
    ensures FirstBlock(header + "\n" + ("\n" + block)) == FirstBlock(block)
  {
    SkipHeaderAndBlank(header, block);
    BlockBehind(header, block);
    FirstBlockOfSuffix(header + "\n" + ("\n" + block), |header| + 2);
  }

  /** What is left of a header after its first line, when the document goes on. */
  lemma ReadBlockKept(h: string, rest: string) returns (info: string, before: string, f: Fence)
    ensures ReadBlock(h + "\n" + rest) == ReadCode(info, before + rest, f)
  {
    FirstLineKept(h, rest);
    var s := h + "\n" + rest;
    before := if NextLine(s) <= |h| then h[NextLine(s)..] + "\n" else "";
    assert s[NextLine(s)..] == before + rest;
    var line := FirstLine(s);
    f := FenceOf(line);
    var fenceLine := line[Indent(line)..];
    info := Trimmed(fenceLine[LeadingRun(fenceLine, f.mark)..]);
  }

  /** A block opened in the header starts its code before the rest of the document. */
  lemma HeaderThenCode(header: string, rest: string) returns (info: string, before: string, f: Fence)
    requires BlockStart(header) < |header|
    ensures FirstBlock(header + "\n" + rest) == ReadCode(info, before + rest, f)
  {
    HeaderOpens(header, rest);
    var k := BlockStart(header);
    info, before, f := BlockAtKept(header, rest, k);
  }

  lemma BlockAtKept(header: string, rest: string, k: nat) returns (info: string, before: string, f: Fence)
    requires k < |header|
    ensures BlockAt(header + "\n" + rest, k) == ReadCode(info, before + rest, f)
  {
    assert (header + "\n" + rest)[k..] == header[k..] + "\n" + rest;
    info, before, f := ReadBlockKept(header[k..], rest);
  }

  /** Losing indentation shortens no run of backticks. */
  lemma {:induction false} RunSurvives(s: string, indent: nat, left: nat, i: nat, j: nat) returns (m: nat)
    requires i < j <= |s| && forall k :: i <= k < j ==> s[k] == '`'
    ensures var u := Unindented(s, indent, left);
      m + (j - i) <= |u| && forall k :: m <= k < m + (j - i) ==> u[k] == '`'
    decreases |s|
  {
    if i == 0 {
      m := 0;
      RunAtStart(s, indent, left, j);
    } else {
      var next := if s[0] == ' ' && left > 0 then left - 1 else if IsLineEnd(s[0]) then indent else 0;
      m := RunSurvives(s[1..], indent, next, i - 1, j - 1);
      if !(s[0] == ' ' && left > 0) { m := m + 1; }
    }
  }

  lemma {:induction false} RunAtStart(s: string, indent: nat, left: nat, j: nat)
    requires j <= |s| && forall k :: 0 <= k < j ==> s[k] == '`'
    ensures var u := Unindented(s, indent, left); j <= |u| && forall k :: 0 <= k < j ==> u[k] == '`'
    decreases |s|
  {
    if j > 0 { RunAtStart(s[1..], indent, 0, j - 1); }
  }

  /** The fence outlasts the runs of the text with the newline that ends it. */
  lemma PrintedRuns(text: string, m: nat, n: nat)
    requires m + n <= |text| + 1 && forall k :: m <= k < m + n ==> (text + "\n")[k] == '`'
    ensures n < |CodeFence(text)|
  {
    hide LongestFence;
    if n > 0 {
      assert (text + "\n")[m + n - 1] == '`';
      var run := text[m..m + n];
      forall k | 0 <= k < |run| ensures run[k] == '`' { assert (text + "\n")[m + k] == run[k]; }
      FenceOutlastsRuns(text, m, m + n);
    }
  }

  /** Code that starts before the printed fence line holds that fence or ends before it: it is never the text. */
  lemma EarlierCodeDiffers(
    info: string, before: string, language: string, text: string, notice: string, k: nat, indent: nat)
    requires notice == "" || notice[0] == '\n'
    requires k <= |before + ("\n" + PrintedBlock(language, text, notice))|
    ensures CodeUpTo(info, before + ("\n" + PrintedBlock(language, text, notice)), k, indent)
      != CodeBlock(Trimmed(language), text + "\n", AfterNotice(notice))
  {
    hide LongestFence, Unindented;
    var n, s := |CodeFence(text)|, before + ("\n" + PrintedBlock(language, text, notice));
    var start := |before| + 1;
    if k >= start + n {
      if Unindented(s[..k], indent, indent) == text + "\n" {
        FenceInPrinted(before, language, text, notice, k);
        var m := RunSurvives(s[..k], indent, indent, start, start + n);
        PrintedRuns(text, m, n);
      }
    } else {
      EarlierEnd(before, language, text, notice, k);
    }
  }

  lemma FenceInPrinted(before: string, language: string, text: string, notice: string, k: nat)
    requires var n, s := |CodeFence(text)|, before + ("\n" + PrintedBlock(language, text, notice));
      |before| + 1 + n <= k <= |s|
    ensures var n, s := |CodeFence(text)|, before + ("\n" + PrintedBlock(language, text, notice));
      forall i :: |before| + 1 <= i < |before| + 1 + n ==> s[..k][i] == '`'
  {
    hide LongestFence;
    var n, s := |CodeFence(text)|, before + ("\n" + PrintedBlock(language, text, notice));
    assert s == before + "\n" + Ticks(n) + (language + "\n" + (text + "\n" + (Ticks(n) + notice)));
    forall i | |before| + 1 <= i < |before| + 1 + n ensures s[..k][i] == '`' {
      assert s[i] == Ticks(n)[i - |before| - 1];
    }
  }

  /** A closing line that starts no later than the printed fence leaves the whole text behind it. */
  lemma EarlierEnd(before: string, language: string, text: string, notice: string, k: nat)
    requires k < |before| + 1 + |CodeFence(text)|
    ensures var s := before + ("\n" + PrintedBlock(language, text, notice));
      k <= |s| && |s[k..][NextLine(s[k..])..]| > |notice|
  {
    hide LongestFence;
    var fence := CodeFence(text);
    var head := before + "\n" + fence + language;
    var s := before + ("\n" + PrintedBlock(language, text, notice));
    assert s == head + ("\n" + (text + "\n" + (fence + notice)));
    assert s[|head|] == '\n' && s[k..][|head| - k] == '\n';
    LineEndsBy(s[k..], |head| - k);
  }

  /** A line ends at the latest where a newline stands. */
  lemma LineEndsBy(s: string, i: nat)
    requires i < |s| && s[i] == '\n'
    ensures LineLength(s) <= i && NextLine(s) <= i + 1
  {
    var len := LineLength(s);
    assert forall k :: 0 <= k < len ==> s[..len][k] == s[k];
    if len == i { assert s[len] == '\n'; }
  }

  /** For every name and text: the block such a reader finds in the message carries the language and
      exactly the text (with the newline that ends its last line), and only the notice follows it, precisely
      when no line of the file's own name opens a block. */
  lemma FenceRoundTripIff(name: string, language: string, raw: string)
    requires OneLine(language) && '`' !in language
    ensures FirstBlock(Printed(name, language, raw))
        == CodeBlock(Trimmed(language), ShownText(raw) + "\n", AfterNotice(Notice(raw)))
      <==> FirstBlock(HEADER + name) == NoBlock
  {
    var header, text, notice := HEADER + name, ShownText(raw), Notice(raw);
    PrintedShape(name, language, raw);
    if BlockStart(header) == |header| {
      HeaderThenBlock(header, PrintedBlock(language, text, notice));
      FenceRuns(text);
      ReadsBlock(|CodeFence(text)|, language, text, notice);
    } else {
      var info, before, f := HeaderThenCode(header, "\n" + PrintedBlock(language, text, notice));
      var code := before + ("\n" + PrintedBlock(language, text, notice));
      EarlierCodeDiffers(info, before, language, text, notice, CodeLength(code, f), f.indent);
    }
  }

  /** In particular every name on one line is safe. */
  lemma OneLineNameIsSafe(name: string)
    requires OneLine(name)
    ensures FirstBlock(HEADER + name) == NoBlock
  {
    var line := HEADER + name;
    HeaderOpensNothing(name);
    LineOf(line, line);
    assert line[..|line|] == line && line[|line|..] == "";
  }

  lemma HeaderOpensNothing(name: string)
    requires OneLine(name)
    ensures OneLine(HEADER + name) && !IsOpening(HEADER + name)
  {
    var line := HEADER + name;
    assert line[0] == '已' && line[0..] == line;
    assert OneLine(HEADER);
    forall i | 0 <= i < |line| ensures !IsLineEnd(line[i]) {
      assert line[i] == if i < |HEADER| then HEADER[i] else name[i - |HEADER|];
    }
  }

  /** A name with a line break can open a block of its own, with backticks or with tildes. */
  lemma NameOpensBlock()
    ensures FirstBlock(HEADER + "a\n```\nb.txt") != NoBlock
    ensures FirstBlock(HEADER + "a\n~~~\nb.txt") != NoBlock
  {
    hide FirstBlock;
    SecondLineOpens("```");
    SecondLineOpens("~~~");
    assert HEADER + "a" + "\n" + ("```" + "\n" + "b.txt") == HEADER + "a\n```\nb.txt";
    assert HEADER + "a" + "\n" + ("~~~" + "\n" + "b.txt") == HEADER + "a\n~~~\nb.txt";
  }

  lemma SecondLineOpens(fence: string)
    requires fence == "```" || fence == "~~~"
    ensures FirstBlock(HEADER + "a" + "\n" + (fence + "\n" + "b.txt")) != NoBlock
  {
    var rest := fence + "\n" + "b.txt";
    HeaderOpensNothing("a");
    StartsWithLine(HEADER + "a", rest);
    StartsWithLine(fence, "b.txt");
    assert fence[0..] == fence && LeadingRun(fence, fence[0]) == 3 && fence[3..] == "";
    assert BlockStart(rest) == 0;
  }
}
