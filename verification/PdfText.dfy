/** app/agents/chat.py: the size checks and the text budget of PDF attachments in a message history. */
module PdfText {
  import opened Values

  const PDF_TEXT_MAX_CHARS: nat := 120_000
  const PDF_MAX_PAGES: nat := 100
  const PDF_MAX_ATTACHMENTS_PER_HISTORY: nat := 3
  const PDF_TOTAL_MAX_DECODED_BYTES: nat := 8 * 1024 * 1024

  // ---- Base64, section 4 of RFC 4648 -------------------------------------------------------

  type Byte = n: int | 0 <= n < 256

  function Sextet(c: char): Option<nat>
    ensures Sextet(c).Some? ==> Sextet(c).value < 64 && c != '='
  {
    if 'A' <= c <= 'Z' then Some(c as int - 'A' as int)
    else if 'a' <= c <= 'z' then Some(c as int - 'a' as int + 26)
    else if '0' <= c <= '9' then Some(c as int - '0' as int + 52)
    else if c == '+' then Some(62)
    else if c == '/' then Some(63)
    else None
  }

  function Letter(n: nat): (c: char)
    requires n < 64
    ensures Sextet(c) == Some(n)
  {
    if n < 26 then (n + 'A' as int) as char
    else if n < 52 then (n - 26 + 'a' as int) as char
    else if n < 62 then (n - 52 + '0' as int) as char
    else if n == 62 then '+' else '/'
  }

  /** The bytes of a valid encoding: full groups of four, the last one padded with one or two `=`. */
  function Decode(s: string): Option<seq<Byte>>
    decreases |s|
  {
    if s == "" then Some([])
    else if |s| < 4 then None
    else
      var a, b := Sextet(s[0]), Sextet(s[1]);
      var c, d := Sextet(s[2]), Sextet(s[3]);
      if a.None? || b.None? then None
      else
        var first: Byte := a.value * 4 + b.value / 16;
        if |s| == 4 && s[2] == '=' && s[3] == '=' then Some([first])
        else if c.None? then None
        else
          var second: Byte := b.value % 16 * 16 + c.value / 4;
          if |s| == 4 && s[3] == '=' then Some([first, second])
          else if d.None? then None
          else
            var third: Byte := c.value % 4 * 64 + d.value;
            var rest := Decode(s[4..]);
            if rest.None? then None else Some([first, second, third] + rest.value)
  }

  function Encode(bytes: seq<Byte>): string
    decreases |bytes|
  {
    if bytes == [] then ""
    else if |bytes| == 1 then [Letter(bytes[0] / 4), Letter(bytes[0] % 4 * 16), '=', '=']
    else if |bytes| == 2 then
      [Letter(bytes[0] / 4), Letter(bytes[0] % 4 * 16 + bytes[1] / 16), Letter(bytes[1] % 16 * 4), '=']
    else
      [Letter(bytes[0] / 4), Letter(bytes[0] % 4 * 16 + bytes[1] / 16),
       Letter(bytes[1] % 16 * 4 + bytes[2] / 64), Letter(bytes[2] % 64)] + Encode(bytes[3..])
  }

  lemma SplitBits(x: Byte, y: Byte, z: Byte)
    ensures x / 4 < 64 && x % 4 * 16 + y / 16 < 64 && y % 16 * 4 + z / 64 < 64
    ensures x / 4 * 4 + (x % 4 * 16 + y / 16) / 16 == x
    ensures (x % 4 * 16 + y / 16) % 16 * 16 + (y % 16 * 4 + z / 64) / 4 == y
    ensures (y % 16 * 4 + z / 64) % 4 * 64 + z % 64 == z
  {
    assert (x % 4 * 16 + y / 16) / 16 == x % 4;
    assert (x % 4 * 16 + y / 16) % 16 == y / 16;
    assert (y % 16 * 4 + z / 64) / 4 == y % 16;
    assert (y % 16 * 4 + z / 64) % 4 == z / 64;
  }

  lemma DecodeGroup(a: nat, b: nat, c: nat, d: nat, rest: string, bytes: seq<Byte>)
    requires a < 64 && b < 64 && c < 64 && d < 64 && Decode(rest) == Some(bytes)
    ensures Decode([Letter(a), Letter(b), Letter(c), Letter(d)] + rest)
      == Some([a * 4 + b / 16, b % 16 * 16 + c / 4, c % 4 * 64 + d] + bytes)
  {
    DecodeFull([Letter(a), Letter(b), Letter(c), Letter(d)] + rest, a, b, c, d, rest, bytes);
  }

  lemma DecodeFull(s: string, a: nat, b: nat, c: nat, d: nat, rest: string, bytes: seq<Byte>)
    requires a < 64 && b < 64 && c < 64 && d < 64 && Decode(rest) == Some(bytes)
    requires |s| >= 4 && s[4..] == rest
    requires Sextet(s[0]) == Some(a) && Sextet(s[1]) == Some(b) && Sextet(s[2]) == Some(c) && Sextet(s[3]) == Some(d)
    ensures Decode(s) == Some([a * 4 + b / 16, b % 16 * 16 + c / 4, c % 4 * 64 + d] + bytes)
  {
    hide Sextet;
    assert Decode(s[4..]) == Some(bytes);
  }

  lemma DecodeTails(a: nat, b: nat, c: nat)
    requires a < 64 && b < 64 && c < 64
    ensures Decode([Letter(a), Letter(b), '=', '=']) == Some([a * 4 + b / 16])
    ensures Decode([Letter(a), Letter(b), Letter(c), '=']) == Some([a * 4 + b / 16, b % 16 * 16 + c / 4])
  {
    hide Letter;
  }

  lemma {:induction false} DecodeEncode(bytes: seq<Byte>)
    ensures Decode(Encode(bytes)) == Some(bytes)
    decreases |bytes|
  {
    hide Letter, Sextet;
    if |bytes| == 1 {
      EncodedOne(bytes);
    } else if |bytes| == 2 {
      EncodedTwo(bytes);
    } else if |bytes| >= 3 {
      var rest := bytes[3..];
      DecodeEncode(rest);
      SplitBits(bytes[0], bytes[1], bytes[2]);
      EncodedGroup(bytes[0], bytes[1], bytes[2], rest, Encode(rest));
      assert bytes == [bytes[0], bytes[1], bytes[2]] + rest;
    }
  }

  lemma EncodedOne(bytes: seq<Byte>)
    requires |bytes| == 1
    ensures Decode(Encode(bytes)) == Some(bytes)
  {
    hide Decode, Letter, Sextet;
    var x := bytes[0];
    SplitBits(x, 0, 0);
    DecodeTails(x / 4, x % 4 * 16, 0);
    assert Encode(bytes) == [Letter(x / 4), Letter(x % 4 * 16), '=', '='];
    assert bytes == [x];
  }

  lemma EncodedTwo(bytes: seq<Byte>)
    requires |bytes| == 2
    ensures Decode(Encode(bytes)) == Some(bytes)
  {
    hide Decode, Letter, Sextet;
    var x, y := bytes[0], bytes[1];
    SplitBits(x, y, 0);
    var a, b, c := x / 4, x % 4 * 16 + y / 16, y % 16 * 4;
    DecodeTails(a, b, c);
    assert Encode(bytes) == [Letter(a), Letter(b), Letter(c), '='];
    assert bytes == [x, y];
  }

  lemma EncodedGroup(x: Byte, y: Byte, z: Byte, rest: seq<Byte>, e: string)
    requires Decode(e) == Some(rest)
    requires x / 4 < 64 && x % 4 * 16 + y / 16 < 64 && y % 16 * 4 + z / 64 < 64
    ensures Decode([Letter(x / 4), Letter(x % 4 * 16 + y / 16), Letter(y % 16 * 4 + z / 64), Letter(z % 64)] + e)
      == Some([x, y, z] + rest)
  {
    hide Decode, Letter, Sextet;
    SplitBits(x, y, z);
    DecodeGroup(x / 4, x % 4 * 16 + y / 16, y % 16 * 4 + z / 64, z % 64, e, rest);
  }

  function TrailingPadding(s: string): (n: nat)
    ensures n <= |s|
  {
    if s != "" && s[|s| - 1] == '=' then 1 + TrailingPadding(s[..|s| - 1]) else 0
  }

  /** `_base64_decoded_size`: an estimate from the length and the trailing padding. */
  function DecodedSize(s: string): nat {
    var groups := |s| / 4;
    if |s| % 4 != 0 then (groups + 1) * 3
    else
      var padding := TrailingPadding(s);
      PaddingFits(s);
      groups * 3 - (if padding > 2 then 2 else padding)
  }

  lemma PaddingFits(s: string)
    requires |s| % 4 == 0
    ensures var p := TrailingPadding(s); |s| / 4 * 3 >= if p > 2 then 2 else p
  {
  }

  lemma {:induction false} TrailingOfSuffix(s: string, n: nat)
    requires n <= |s| && TrailingPadding(s[n..]) < |s| - n
    ensures TrailingPadding(s) == TrailingPadding(s[n..])
    decreases |s|
  {
    if |s| > n && s[|s| - 1] == '=' {
      assert s[n..][..|s| - n - 1] == s[..|s| - 1][n..];
      TrailingOfSuffix(s[..|s| - 1], n);
    }
  }

  lemma {:induction false} ValidShape(s: string)
    requires Decode(s).Some?
    ensures |s| % 4 == 0 && TrailingPadding(s) <= 2
    ensures |Decode(s).value| == |s| / 4 * 3 - TrailingPadding(s)
    decreases |s|
  {
    if |s| > 4 {
      ValidShape(s[4..]);
      TrailingOfSuffix(s, 4);
    } else if |s| == 4 {
      assert s[..3][..2] == s[..2];
      assert s[..2][1] != '=' && TrailingPadding(s[..2]) == 0;
      assert TrailingPadding(s[..3]) == if s[2] == '=' then 1 else 0;
    }
  }

  /** The estimate is the exact decoded length of every valid encoding. */
  lemma SizeIsExact(s: string)
    requires Decode(s).Some?
    ensures DecodedSize(s) == |Decode(s).value|
  {
    ValidShape(s);
  }

  /** The characters of the alphabet in a text: whatever a lenient decoder keeps. */
  function Letters(s: string): (n: nat)
    ensures n <= |s|
  {
    if s == "" then 0 else Letters(s[..|s| - 1]) + if Sextet(s[|s| - 1]).Some? then 1 else 0
  }

  lemma {:induction false} LettersBeforePadding(s: string)
    ensures Letters(s) + TrailingPadding(s) <= |s|
    decreases |s|
  {
    if s != "" && s[|s| - 1] == '=' { LettersBeforePadding(s[..|s| - 1]); }
  }

  /** On any other text the estimate bounds the bytes that even a lenient decoder could produce. */
  lemma SizeIsUpperBound(s: string)
    ensures Letters(s) * 6 / 8 <= DecodedSize(s)
  {
    LettersBeforePadding(s);
  }

  /** Some Python versions accept padding after full groups, where section 4 of RFC 4648 has none. */
  const ACCEPTS_STRAY_PADDING: bool

  /** `base64.b64decode(data, validate=True)`. */
  function StrictDecode(s: string): Option<seq<Byte>> {
    var body := s[..|s| - TrailingPadding(s)];
    if Decode(s).Some? || !ACCEPTS_STRAY_PADDING || body == "" then Decode(s) else Decode(body)
  }

  /** The estimate bounds whatever is accepted, and is exact on the standard encodings. */
  lemma SizeBoundsAccepted(s: string)
    requires StrictDecode(s).Some?
    ensures |StrictDecode(s).value| <= DecodedSize(s)
    ensures Decode(s).Some? ==> |StrictDecode(s).value| == DecodedSize(s)
  {
    if Decode(s).Some? {
      SizeIsExact(s);
    } else {
      hide Decode;
      ValidShape(s[..|s| - TrailingPadding(s)]);
    }
  }

  // ---- The history-wide check --------------------------------------------------------------

  /** A content block: a PDF file with its Base64 text, if that is a string, or anything else. */
  datatype Block = Pdf(filename: string, data: Option<string>) | OtherBlock

  function ByteLimit(maxUploadBytes: nat): nat {
    if maxUploadBytes < PDF_TOTAL_MAX_DECODED_BYTES then maxUploadBytes else PDF_TOTAL_MAX_DECODED_BYTES
  }

  function PdfCount(blocks: seq<Block>): nat {
    if blocks == [] then 0 else PdfCount(blocks[..|blocks| - 1]) + if blocks[|blocks| - 1].Pdf? then 1 else 0
  }

  function BlockSize(b: Block): nat { if b.Pdf? && b.data.Some? then DecodedSize(b.data.value) else 0 }

  function TotalSize(blocks: seq<Block>): nat {
    if blocks == [] then 0 else TotalSize(blocks[..|blocks| - 1]) + BlockSize(blocks[|blocks| - 1])
  }

  predicate HistoryFits(blocks: seq<Block>, limit: nat) {
    PdfCount(blocks) <= PDF_MAX_ATTACHMENTS_PER_HISTORY && TotalSize(blocks) <= limit
  }

  lemma {:induction false} TotalGrows(blocks: seq<Block>, i: nat)
    requires i < |blocks|
    ensures TotalSize(blocks[..i]) + BlockSize(blocks[i]) <= TotalSize(blocks)
    decreases |blocks|
  {
    if i < |blocks| - 1 {
      TotalGrows(blocks[..|blocks| - 1], i);
      assert blocks[..|blocks| - 1][..i] == blocks[..i];
    } else {
      assert blocks[..i] == blocks[..|blocks| - 1];
    }
  }

  datatype Problem = TooMany | TooLarge | BadBase64 | Unreadable

  /** `_validate_pdf_history_blocks`. */
  method ValidateHistory(blocks: seq<Block>, limit: nat) returns (problem: Option<Problem>)
    ensures problem.None? <==> HistoryFits(blocks, limit)
    ensures problem.None? || problem == Some(TooMany) || problem == Some(TooLarge)
    ensures problem == Some(TooMany) <==> PdfCount(blocks) > PDF_MAX_ATTACHMENTS_PER_HISTORY
  {
    var count := 0;
    for i := 0 to |blocks|
      invariant count == PdfCount(blocks[..i])
    {
      assert blocks[..i + 1][..i] == blocks[..i];
      if blocks[i].Pdf? { count := count + 1; }
    }
    assert blocks[..|blocks|] == blocks;
    if count > PDF_MAX_ATTACHMENTS_PER_HISTORY { return Some(TooMany); }
    var estimatedTotal := 0;
    for i := 0 to |blocks|
      invariant estimatedTotal == TotalSize(blocks[..i])
    {
      assert blocks[..i + 1][..i] == blocks[..i];
      if blocks[i].Pdf? && blocks[i].data.Some? {
        var estimate := DecodedSize(blocks[i].data.value);
        if estimate > limit {
          TotalGrows(blocks, i);
          return Some(TooLarge);
        }
        estimatedTotal := estimatedTotal + estimate;
      }
    }
    problem := if estimatedTotal > limit then Some(TooLarge) else None;
  }

  // ---- The text budget ---------------------------------------------------------------------

  /** The stripped text of each page of a readable PDF. */
  const PagesOf: seq<Byte> -> Option<seq<string>>

  function Decimal(n: nat): string {
    if n < 10 then [(n + '0' as int) as char] else Decimal(n / 10) + [(n % 10 + '0' as int) as char]
  }

  function Section(number: nat, text: string): (s: string)
    ensures |s| > |text|
  {
    "[第 " + Decimal(number) + " 页]\n" + text
  }

  /** The sections of the first `n` pages: pages without text have none. */
  function Sections(pages: seq<string>, n: nat): seq<string>
    requires n <= |pages|
  {
    if n == 0 then []
    else if pages[n - 1] == "" then Sections(pages, n - 1)
    else Sections(pages, n - 1) + [Section(n, pages[n - 1])]
  }

  function ReadPages(pages: seq<string>): nat { if |pages| < PDF_MAX_PAGES then |pages| else PDF_MAX_PAGES }

  /** "\n\n".join(sections) */
  function Join(sections: seq<string>): string {
    if sections == [] then ""
    else if |sections| == 1 then sections[0]
    else Join(sections[..|sections| - 1]) + "\n\n" + sections[|sections| - 1]
  }

  /** What the whole attachment would contribute without a budget. */
  function FullText(pages: seq<string>): string { Join(Sections(pages, ReadPages(pages))) }

  lemma JoinSnoc(sections: seq<string>, s: string)
    ensures Join(sections + [s]) == if sections == [] then s else Join(sections) + "\n\n" + s
  {
    assert (sections + [s])[..|sections|] == sections;
  }

  lemma {:induction false} JoinOfMorePages(pages: seq<string>, m: nat, n: nat)
    requires m <= n <= |pages|
    ensures Join(Sections(pages, m)) <= Join(Sections(pages, n))
    decreases n - m
  {
    hide Section, Decimal, Join;
    if m < n {
      JoinOfMorePages(pages, m, n - 1);
      JoinNothing();
      if pages[n - 1] != "" { JoinSnoc(Sections(pages, n - 1), Section(n, pages[n - 1])); }
    }
  }

  /** What one attachment added to the history. */
  datatype Extract = Extract(body: string, textTruncated: bool, pagesTruncated: bool)

  /** The text of the first `n` pages fits the room that is left. */
  ghost predicate Fits(pages: seq<string>, n: nat, extracted: nat) {
    n <= |pages| && extracted + |Join(Sections(pages, n))| <= PDF_TEXT_MAX_CHARS
  }

  /** What the page loop may return: a prefix of the full text, all of it if there is room, and otherwise all
      of the room but two characters at most. */
  ghost predicate Extracts(pages: seq<string>, extracted: nat, e: Extract) {
    && extracted + |e.body| <= PDF_TEXT_MAX_CHARS
    && e.body <= FullText(pages)
    && (e.textTruncated <==> |FullText(pages)| > PDF_TEXT_MAX_CHARS - extracted)
    && (!e.textTruncated ==> e.body == FullText(pages))
    && (e.textTruncated ==> |e.body| + 2 >= PDF_TEXT_MAX_CHARS - extracted)
    && (e.pagesTruncated <==> !e.textTruncated && |pages| > PDF_MAX_PAGES)
  }

  /** Page `n` has a text whose section does not fit any more: what is returned then. */
  lemma CutExtracts(pages: seq<string>, n: nat, extracted: nat, remaining: int)
    requires Fits(pages, n, extracted) && n < ReadPages(pages) && pages[n] != ""
    requires var texts, section := Sections(pages, n), Section(n + 1, pages[n]);
      remaining == PDF_TEXT_MAX_CHARS - extracted - |Join(texts)| - (if texts == [] then 0 else 2) < |section|
    ensures remaining <= 0 ==> Extracts(pages, extracted, Extract(Join(Sections(pages, n)), true, false))
    ensures remaining > 0 ==>
      var body := Join(Sections(pages, n) + [Section(n + 1, pages[n])[..remaining]]);
      Extracts(pages, extracted, Extract(body, true, false)) && extracted + |body| == PDF_TEXT_MAX_CHARS
  {
    hide Join, Section, Decimal, Sections;
    var texts, section := Sections(pages, n), Section(n + 1, pages[n]);
    NextSection(pages, n);
    JoinSnoc(texts, section);
    JoinOfMorePages(pages, n, ReadPages(pages));
    JoinOfMorePages(pages, n + 1, ReadPages(pages));
    if remaining > 0 {
      JoinSnoc(texts, section[..remaining]);
      CutIsPrefix(texts, section, remaining);
    }
    JoinNothing();
  }

  lemma NextSection(pages: seq<string>, n: nat)
    requires n < |pages|
    ensures Sections(pages, n + 1)
      == if pages[n] == "" then Sections(pages, n) else Sections(pages, n) + [Section(n + 1, pages[n])]
  {
  }

  lemma JoinNothing()
    ensures Join([]) == ""
  {
  }

  /** The page loop: `extracted` is the budget's counter before, `used` after. */
  method ExtractPages(pages: seq<string>, extracted: nat) returns (e: Extract, used: nat)
    requires extracted < PDF_TEXT_MAX_CHARS
    ensures Extracts(pages, extracted, e) && used == extracted + |e.body| <= PDF_TEXT_MAX_CHARS
  {
    hide Join, Section, Decimal, Sections, Extracts;
    var pageTexts: seq<string> := [];
    used := extracted;
    var pagesTruncated := false;
    var n := 0;
    JoinNothing();
    NoSections(pages);
    while n < |pages|
      invariant n <= |pages| && n <= PDF_MAX_PAGES
      invariant pageTexts == Sections(pages, n)
      invariant used == extracted + |Join(pageTexts)| <= PDF_TEXT_MAX_CHARS
      invariant !pagesTruncated
      decreases |pages| - n
    {
      if n + 1 > PDF_MAX_PAGES {
        pagesTruncated := true;
        break;
      }
      var text := pages[n];
      NextSection(pages, n);
      if text != "" {
        var section := Section(n + 1, text);
        var separatorSize := if pageTexts == [] then 0 else 2;
        var remaining := PDF_TEXT_MAX_CHARS - used - separatorSize;
        JoinSnoc(pageTexts, section);
        if remaining < |section| { CutExtracts(pages, n, extracted, remaining); }
        if remaining <= 0 {
          return Extract(Join(pageTexts), true, false), used;
        }
        if |section| > remaining {
          return Extract(Join(pageTexts + [section[..remaining]]), true, false), PDF_TEXT_MAX_CHARS;
        }
        pageTexts := pageTexts + [section];
        used := used + separatorSize + |section|;
      }
      n := n + 1;
    }
    e := Extract(Join(pageTexts), false, pagesTruncated);
    WholeExtracts(pages, extracted);
  }

  lemma NoSections(pages: seq<string>)
    ensures Sections(pages, 0) == []
  {
  }

  lemma WholeExtracts(pages: seq<string>, extracted: nat)
    requires Fits(pages, ReadPages(pages), extracted)
    ensures Extracts(pages, extracted, Extract(FullText(pages), false, |pages| > PDF_MAX_PAGES))
  {
  }

  lemma CutIsPrefix(texts: seq<string>, section: string, n: nat)
    requires n <= |section|
    ensures Join(texts + [section[..n]]) <= Join(texts + [section])
  {
    JoinSnoc(texts, section);
    JoinSnoc(texts, section[..n]);
  }

  // ---- The whole history -------------------------------------------------------------------

  /** The bodies extracted so far and the two counters of the budget. */
  datatype Progress = Progress(bodies: seq<Extract>, decodedBytes: nat, extractedChars: nat)

  function BodyTotal(bodies: seq<Extract>): nat {
    if bodies == [] then 0 else BodyTotal(bodies[..|bodies| - 1]) + |bodies[|bodies| - 1].body|
  }

  lemma BodySnoc(bodies: seq<Extract>, e: Extract)
    ensures BodyTotal(bodies + [e]) == BodyTotal(bodies) + |e.body|
  {
    assert (bodies + [e])[..|bodies|] == bodies;
  }

  datatype Outcome = Failed(problem: Problem) | Normalized(progress: Progress)

  /** The new body is the attachment's text, cut only for want of budget, wasting at most two characters of it. */
  ghost predicate ExtractedFrom(data: string, p: Progress, q: Progress)
    requires StrictDecode(data).Some?
  {
    var pages := PagesOf(StrictDecode(data).value);
    && pages.Some? && |q.bodies| == |p.bodies| + 1 && p.bodies <= q.bodies
    && var e := q.bodies[|p.bodies|];
       q.extractedChars == p.extractedChars + |e.body| && Extracts(pages.value, p.extractedChars, e)
  }

  /** What one PDF block with string data does to the counters and bodies. */
  ghost predicate Converted(data: string, p: Progress, q: Progress) {
    && StrictDecode(data).Some? && q.decodedBytes == p.decodedBytes + |StrictDecode(data).value|
    && if p.extractedChars >= PDF_TEXT_MAX_CHARS then q == p.(decodedBytes := q.decodedBytes)
       else ExtractedFrom(data, p, q)
  }

  /** `_pdf_file_block_to_text` on one PDF block with string data. */
  method PdfBlockToText(data: string, limit: nat, p: Progress) returns (r: Outcome)
    requires p.extractedChars == BodyTotal(p.bodies) <= PDF_TEXT_MAX_CHARS
    ensures r.Normalized? ==> r.progress.extractedChars == BodyTotal(r.progress.bodies) <= PDF_TEXT_MAX_CHARS
    ensures r.Normalized? ==> Converted(data, p, r.progress) && r.progress.decodedBytes <= limit
    ensures r == Failed(BadBase64) <==> StrictDecode(data).None?
    ensures r == Failed(TooLarge) <==> StrictDecode(data).Some? && p.decodedBytes + |StrictDecode(data).value| > limit
    ensures r == Failed(Unreadable) ==> p.extractedChars < PDF_TEXT_MAX_CHARS && PagesOf(StrictDecode(data).value).None?
    ensures r != Failed(TooMany)
  {
    hide StrictDecode, Extracts, BodyTotal;
    var bytes := StrictDecode(data);
    if bytes.None? { return Failed(BadBase64); }
    if |bytes.value| > limit { return Failed(TooLarge); }
    var decoded := p.decodedBytes + |bytes.value|;
    if decoded > limit { return Failed(TooLarge); }
    if p.extractedChars >= PDF_TEXT_MAX_CHARS { return Normalized(p.(decodedBytes := decoded)); }
    var pages := PagesOf(bytes.value);
    if pages.None? { return Failed(Unreadable); }
    var e, used := ExtractPages(pages.value, p.extractedChars);
    BodySnoc(p.bodies, e);
    r := Normalized(Progress(p.bodies + [e], decoded, used));
  }

  /** The progress before each block and after the last: PDF blocks are converted in order, others add nothing. */
  ghost predicate Trail(blocks: seq<Block>, steps: seq<Progress>, n: nat) {
    && n <= |blocks| && |steps| == n + 1 && steps[0] == Progress([], 0, 0)
    && forall i | 0 <= i < n ::
         if blocks[i].Pdf? && blocks[i].data.Some? then Converted(blocks[i].data.value, steps[i], steps[i + 1])
         else steps[i + 1] == steps[i]
  }

  /** Every PDF block carries a standard encoding. */
  predicate AllStandard(blocks: seq<Block>) {
    forall i | 0 <= i < |blocks| && blocks[i].Pdf? && blocks[i].data.Some? :: Decode(blocks[i].data.value).Some?
  }

  /** `_normalize_multimodal_messages` over the content blocks of all messages. The lengths of the extracted
      bodies add up to the budget's counter, and once the history is accepted no size check fails later. */
  method NormalizeHistory(blocks: seq<Block>, maxUploadBytes: nat) returns (r: Outcome)
    ensures r.Normalized? ==> r.progress.extractedChars == BodyTotal(r.progress.bodies) <= PDF_TEXT_MAX_CHARS
    ensures r.Normalized? ==> r.progress.decodedBytes <= TotalSize(blocks) <= ByteLimit(maxUploadBytes)
    ensures r.Normalized? && AllStandard(blocks) ==> r.progress.decodedBytes == TotalSize(blocks)
    ensures r.Normalized? ==> exists steps :: Trail(blocks, steps, |blocks|) && steps[|blocks|] == r.progress
    ensures HistoryFits(blocks, ByteLimit(maxUploadBytes)) <==> r != Failed(TooMany) && r != Failed(TooLarge)
    ensures r == Failed(BadBase64) ==>
      exists b :: b in blocks && b.Pdf? && b.data.Some? && StrictDecode(b.data.value).None?
  {
    var limit := ByteLimit(maxUploadBytes);
    var problem := ValidateHistory(blocks, limit);
    if problem.Some? { return Failed(problem.value); }
    var p := Progress([], 0, 0);
    ghost var steps := [p];
    for i := 0 to |blocks|
      invariant p.extractedChars == BodyTotal(p.bodies) <= PDF_TEXT_MAX_CHARS
      invariant p.decodedBytes <= TotalSize(blocks[..i])
      invariant AllStandard(blocks) ==> p.decodedBytes == TotalSize(blocks[..i])
      invariant Trail(blocks, steps, i) && steps[i] == p
    {
      hide StrictDecode, Decode, ExtractedFrom, DecodedSize;
      assert blocks[..i + 1][..i] == blocks[..i];
      if blocks[i].Pdf? && blocks[i].data.Some? {
        TotalGrows(blocks, i);
        var data := blocks[i].data.value;
        if StrictDecode(data).Some? { SizeBoundsAccepted(data); }
        var step := PdfBlockToText(data, limit, p);
        if step.Failed? {
          assert blocks[i] in blocks;
          return step;
        }
        p := step.progress;
      }
      steps := steps + [p];
    }
    assert blocks[..|blocks|] == blocks;
    r := Normalized(p);
  }
}
