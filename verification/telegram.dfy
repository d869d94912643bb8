/**
 * Text processing of the Telegram channel (pkg/channels/telegram.go):
 * splitting long messages into chunks Telegram accepts, HTML escaping, the
 * per-chat buffers that gather streamed text with the truncated preview, and
 * the flattening of Markdown tables into readable rows.
 */
module Telegram {
  import opened Wrappers
  import opened Strings
  import Bus

  // ---- Splitting long messages ----

  /** Telegram's limit for a single message, in bytes. */
  const MaxMessageLength: nat := 4096

  /**
   * The split point for text longer than the limit: the last blank line in
   * the first 4096 bytes when it lies past the middle, else the last line
   * break past the middle, else the limit itself.
   */
  function CutPoint(remaining: string): (cut: nat)
    requires |remaining| > MaxMessageLength
    ensures MaxMessageLength / 2 < cut <= MaxMessageLength
  {
    var window := remaining[..MaxMessageLength];
    var para := LastIndex(window, "\n\n");
    if para > MaxMessageLength / 2 then para
    else
      var line := LastIndex(window, "\n");
      if line > MaxMessageLength / 2 then line else MaxMessageLength
  }

  /** One round of the split loop: the trimmed chunk before the cut and the trimmed rest after it. */
  function NextCut(remaining: string): (r: (string, string))
    requires |remaining| > MaxMessageLength
    ensures |r.0| <= MaxMessageLength && |r.1| < |remaining|
    ensures Trimmed(r.0) && Trimmed(r.1)
  {
    var cut := CutPoint(remaining);
    (TrimSpace(remaining[..cut]), TrimSpace(remaining[cut..]))
  }

  /** A chunk is sent only when it is not empty. */
  function Emit(chunk: string): seq<string> {
    if chunk != "" then [chunk] else []
  }

  /** The chunks the split loop emits for the text still to send. */
  function ChunksOf(remaining: string): (chunks: seq<string>)
    decreases |remaining|
  {
    if |remaining| == 0 then []
    else if |remaining| <= MaxMessageLength then [remaining]
    else
      var next := NextCut(remaining);
      Emit(next.0) + ChunksOf(next.1)
  }

  /** splitTelegramMessage: short text is sent as it is, longer text in chunks. */
  function SplitMessage(html: string): seq<string> {
    if |html| <= MaxMessageLength then [html] else ChunksOf(html)
  }

  /** The split as the source writes it: a loop that cuts chunks off the front. */
  method SplitTelegramMessage(html: string) returns (chunks: seq<string>)
    ensures chunks == SplitMessage(html)
  {
    if |html| <= MaxMessageLength {
      return [html];
    }
    chunks := [];
    var remaining := html;
    while |remaining| > 0
      invariant chunks + ChunksOf(remaining) == ChunksOf(html)
      decreases |remaining|
    {
      if |remaining| <= MaxMessageLength {
        chunks := chunks + [remaining];
        break;
      }
      chunks, remaining := CutOnce(chunks, remaining);
    }
  }

  /** The body of the split loop for text over the limit. */
  method CutOnce(chunks: seq<string>, remaining: string) returns (chunks': seq<string>, rest: string)
    requires |remaining| > MaxMessageLength
    ensures chunks' + ChunksOf(rest) == chunks + ChunksOf(remaining)
    ensures |rest| < |remaining|
  {
    var cut := CutPoint(remaining);
    var chunk := TrimSpace(remaining[..cut]);
    chunks' := chunks;
    if chunk != "" {
      chunks' := chunks + [chunk];
    }
    rest := TrimSpace(remaining[cut..]);
    assert (chunk, rest) == NextCut(remaining);
    assert ChunksOf(remaining) == Emit(chunk) + ChunksOf(rest);
    assert chunks' == chunks + Emit(chunk);
    AppendAssoc(chunks, Emit(chunk), ChunksOf(rest));
  }

  /** Text without white space at either end. */
  predicate Trimmed(s: string) {
    s == [] || (!IsSpace(s[0]) && !IsSpace(s[|s| - 1]))
  }

  /** Text of at most 4096 bytes is one chunk, unchanged, even when it is empty. */
  lemma ShortMessageIsOneChunk(html: string)
    requires |html| <= MaxMessageLength
    ensures SplitMessage(html) == [html]
  {
  }

  /**
   * Every chunk fits Telegram's limit and is never empty; when the text is
   * over the limit or has no white space at either end, no chunk has any.
   */
  lemma {:induction false} ChunksFit(remaining: string)
    ensures forall k :: 0 <= k < |ChunksOf(remaining)| ==>
      0 < |ChunksOf(remaining)[k]| <= MaxMessageLength
    ensures |remaining| > MaxMessageLength || Trimmed(remaining) ==>
      forall k :: 0 <= k < |ChunksOf(remaining)| ==> Trimmed(ChunksOf(remaining)[k])
    decreases |remaining|
  {
    if |remaining| > MaxMessageLength {
      var next := NextCut(remaining);
      ChunksFit(next.1);
      assert SendableChunks(ChunksOf(next.1));
      SendableAppend(Emit(next.0), ChunksOf(next.1));
      assert ChunksOf(remaining) == Emit(next.0) + ChunksOf(next.1);
    }
  }

  /** Every chunk is non-empty, within the limit and trimmed. */
  ghost predicate SendableChunks(chunks: seq<string>) {
    forall k :: 0 <= k < |chunks| ==> 0 < |chunks[k]| <= MaxMessageLength && Trimmed(chunks[k])
  }

  lemma SendableAppend(head: seq<string>, tail: seq<string>)
    requires SendableChunks(head) && SendableChunks(tail)
    ensures SendableChunks(head + tail)
  {
    forall k | 0 <= k < |head + tail|
      ensures 0 < |(head + tail)[k]| <= MaxMessageLength && Trimmed((head + tail)[k])
    {
      if k >= |head| {
        assert (head + tail)[k] == tail[k - |head|];
      }
    }
  }

  /** Text of more than 4096 bytes: each chunk within the limit, non-empty and trimmed. */
  lemma LongMessageChunks(html: string)
    requires |html| > MaxMessageLength
    ensures forall k :: 0 <= k < |SplitMessage(html)| ==>
      0 < |SplitMessage(html)[k]| <= MaxMessageLength && Trimmed(SplitMessage(html)[k])
  {
    ChunksFit(html);
  }

  /** All chunks joined. */
  function Concat(chunks: seq<string>): string {
    if chunks == [] then "" else chunks[0] + Concat(chunks[1..])
  }

  lemma ConcatEmitAppend(chunk: string, tail: seq<string>)
    ensures NonSpace(Concat(Emit(chunk) + tail)) == NonSpace(chunk) + NonSpace(Concat(tail))
  {
    if chunk != "" {
      assert (Emit(chunk) + tail)[1..] == tail;
      NonSpaceAppend(chunk, Concat(tail));
    } else {
      assert Emit(chunk) + tail == tail;
    }
  }

  /** One cut drops only the white space around it. */
  lemma NextCutKeepsText(remaining: string)
    requires |remaining| > MaxMessageLength
    ensures NonSpace(NextCut(remaining).0) + NonSpace(NextCut(remaining).1) == NonSpace(remaining)
  {
    TrimmedHalvesKeepText(remaining, CutPoint(remaining));
  }

  lemma TrimmedHalvesKeepText(s: string, cut: nat)
    requires cut <= |s|
    ensures NonSpace(TrimSpace(s[..cut])) + NonSpace(TrimSpace(s[cut..])) == NonSpace(s)
  {
    NonSpaceSplit(s, cut);
    TrimSpaceKeepsNonSpace(s[..cut]);
    TrimSpaceKeepsNonSpace(s[cut..]);
  }

  /** Splitting drops only white space: the chunks hold every other byte of the text, in order. */
  lemma {:induction false} ChunksKeepText(remaining: string)
    ensures NonSpace(Concat(ChunksOf(remaining))) == NonSpace(remaining)
    decreases |remaining|
  {
    if |remaining| == 0 {
    } else if |remaining| <= MaxMessageLength {
      assert Concat([remaining]) == remaining + "";
      assert remaining + "" == remaining;
    } else {
      var next := NextCut(remaining);
      ChunksKeepText(next.1);
      NextCutKeepsText(remaining);
      assert ChunksOf(remaining) == Emit(next.0) + ChunksOf(next.1);
      ConcatEmitAppend(next.0, ChunksOf(next.1));
    }
  }

  /** The whole split keeps every non-white-space byte of the message, in order. */
  lemma SplitKeepsText(html: string)
    ensures NonSpace(Concat(SplitMessage(html))) == NonSpace(html)
  {
    if |html| <= MaxMessageLength {
      assert Concat([html]) == html + "";
      assert html + "" == html;
    } else {
      ChunksKeepText(html);
    }
  }

  // ---- HTML escaping ----

  /** strings.ReplaceAll with a one-byte pattern. */
  function ReplaceAll(s: string, c: char, rep: string): (r: string)
    ensures c !in rep ==> c !in r
    ensures forall x :: x in r ==> x in s || x in rep
  {
    if s == [] then []
    else (if s[0] == c then rep else [s[0]]) + ReplaceAll(s[1..], c, rep)
  }

  /** escapeHTML: `&` first, then `<`, then `>`. */
  function EscapeHtml(text: string): (r: string)
    ensures '<' !in r && '>' !in r
  {
    ReplaceAll(ReplaceAll(ReplaceAll(text, '&', "&amp;"), '<', "&lt;"), '>', "&gt;")
  }

  /** The escape of one byte. */
  function EscapeChar(c: char): string {
    if c == '&' then "&amp;" else if c == '<' then "&lt;" else if c == '>' then "&gt;" else [c]
  }

  /** Escaping byte by byte. */
  function EscapeEach(text: string): string {
    if text == [] then [] else EscapeChar(text[0]) + EscapeEach(text[1..])
  }

  lemma {:induction false} ReplaceAllAppend(a: string, b: string, c: char, rep: string)
    ensures ReplaceAll(a + b, c, rep) == ReplaceAll(a, c, rep) + ReplaceAll(b, c, rep)
    decreases |a|
  {
    if a == [] {
      assert a + b == b;
    } else {
      assert (a + b)[1..] == a[1..] + b;
      ReplaceAllAppend(a[1..], b, c, rep);
    }
  }

  lemma {:induction false} ReplaceAllAbsent(s: string, c: char, rep: string)
    requires c !in s
    ensures ReplaceAll(s, c, rep) == s
  {
    if s != [] {
      ReplaceAllAbsent(s[1..], c, rep);
    }
  }

  lemma ReplaceAllOne(x: char, c: char, rep: string)
    ensures ReplaceAll([x], c, rep) == if x == c then rep else [x]
  {
    assert [x][1..] == [];
  }

  /** Escaping distributes over concatenation. */
  lemma EscapeHtmlAppend(a: string, b: string)
    ensures EscapeHtml(a + b) == EscapeHtml(a) + EscapeHtml(b)
  {
    var a1, b1 := ReplaceAll(a, '&', "&amp;"), ReplaceAll(b, '&', "&amp;");
    ReplaceAllAppend(a, b, '&', "&amp;");
    var a2, b2 := ReplaceAll(a1, '<', "&lt;"), ReplaceAll(b1, '<', "&lt;");
    ReplaceAllAppend(a1, b1, '<', "&lt;");
    ReplaceAllAppend(a2, b2, '>', "&gt;");
  }

  /** Escaping one byte. */
  lemma EscapeHtmlOne(c: char)
    ensures EscapeHtml([c]) == EscapeChar(c)
  {
    ReplaceAllOne(c, '&', "&amp;");
    var s1 := ReplaceAll([c], '&', "&amp;");
    if c == '&' {
      ReplaceAllAbsent("&amp;", '<', "&lt;");
      ReplaceAllAbsent("&amp;", '>', "&gt;");
    } else if c == '<' {
      ReplaceAllOne(c, '<', "&lt;");
      ReplaceAllAbsent("&lt;", '>', "&gt;");
    } else {
      ReplaceAllOne(c, '<', "&lt;");
      ReplaceAllOne(c, '>', "&gt;");
    }
  }

  /** The three replacements in the source's order escape each byte on its own. */
  lemma {:induction false} EscapeHtmlIsEscapeEach(text: string)
    ensures EscapeHtml(text) == EscapeEach(text)
    decreases |text|
  {
    if text == [] {
      assert EscapeHtml(text) == [];
    } else {
      assert text == [text[0]] + text[1..];
      EscapeHtmlIsEscapeEach(text[1..]);
      EscapeHtmlAppend([text[0]], text[1..]);
      EscapeHtmlOne(text[0]);
    }
  }

  /** The reference decoder: each entity becomes its byte again, every other byte stays. */
  function UnescapeHtml(s: string): string
    decreases |s|
  {
    if s == [] then []
    else if |s| >= 5 && s[..5] == "&amp;" then "&" + UnescapeHtml(s[5..])
    else if |s| >= 4 && s[..4] == "&lt;" then "<" + UnescapeHtml(s[4..])
    else if |s| >= 4 && s[..4] == "&gt;" then ">" + UnescapeHtml(s[4..])
    else [s[0]] + UnescapeHtml(s[1..])
  }

  /** The escape of one byte, in front of any text, decodes back to that byte. */
  lemma UnescapeEscapedChar(c: char, tail: string)
    ensures UnescapeHtml(EscapeChar(c) + tail) == [c] + UnescapeHtml(tail)
  {
    var s := EscapeChar(c) + tail;
    if c == '&' {
      assert s[..5] == "&amp;" && s[5..] == tail;
    } else if c == '<' {
      assert s[1] == 'l';
      assert !(|s| >= 5 && s[..5] == "&amp;") by {
        if |s| >= 5 { assert s[..5][1] == s[1]; }
      }
      assert s[..4] == "&lt;" && s[4..] == tail;
    } else if c == '>' {
      assert s[1] == 'g';
      assert !(|s| >= 5 && s[..5] == "&amp;") by {
        if |s| >= 5 { assert s[..5][1] == s[1]; }
      }
      assert s[..4] != "&lt;" by { assert s[..4][1] == s[1]; }
      assert s[..4] == "&gt;" && s[4..] == tail;
    } else {
      assert s[0] == c && s[1..] == tail;
      assert !(|s| >= 5 && s[..5] == "&amp;") by {
        if |s| >= 5 { assert s[..5][0] == s[0]; }
      }
      assert !(|s| >= 4 && s[..4] == "&lt;") by {
        if |s| >= 4 { assert s[..4][0] == s[0]; }
      }
      assert !(|s| >= 4 && s[..4] == "&gt;") by {
        if |s| >= 4 { assert s[..4][0] == s[0]; }
      }
    }
  }

  lemma {:induction false} UnescapeEscapeEach(text: string)
    ensures UnescapeHtml(EscapeEach(text)) == text
    decreases |text|
  {
    if text != [] {
      UnescapeEscapeEach(text[1..]);
      UnescapeEscapedChar(text[0], EscapeEach(text[1..]));
      assert [text[0]] + text[1..] == text;
    }
  }

  /** Escaping loses nothing: decoding the escaped text gives the text back. */
  lemma EscapeRoundTrip(text: string)
    ensures UnescapeHtml(EscapeHtml(text)) == text
  {
    EscapeHtmlIsEscapeEach(text);
    UnescapeEscapeEach(text);
  }

  // ---- Markdown tables ----

  /** The row pattern `^\|(.+)\|$`: a line framed by pipes with at least one byte, none a line break, between them. */
  predicate IsTableRow(line: string) {
    |line| >= 3 && line[0] == '|' && line[|line| - 1] == '|' && '\n' !in line[1..|line| - 1]
  }

  /** The bytes `\s` matches in the regular-expression syntax the source uses. */
  predicate IsRegexSpace(c: char) {
    c == ' ' || c == '\t' || c == '\n' || c == '\U{000C}' || c == '\r'
  }

  /** The separator pattern `^\|[-:\s|]+\|$`. */
  predicate IsTableSep(line: string) {
    |line| >= 3 && line[0] == '|' && line[|line| - 1] == '|' &&
    forall k :: 1 <= k < |line| - 1 ==> line[k] in "-:|" || IsRegexSpace(line[k])
  }

  /**
   * The two patterns on the lines of a text, which hold no line break: a
   * separator is itself a row, a row needs a byte between its pipes, and
   * parseTableRow finds cells exactly in rows.
   */
  lemma TableLinePatterns(line: string)
    ensures '\n' !in line && IsTableSep(line) ==> IsTableRow(line)
    ensures IsTableRow(line) <==> Cells(line) != []
    ensures !IsTableRow("||") && IsTableRow("|a|") && IsTableSep("|-|")
  {
    assert "|a|"[1..2] == "a";
  }

  /** Each piece trimmed. */
  function TrimAll(parts: seq<string>): (r: seq<string>)
    ensures |r| == |parts| && forall k :: 0 <= k < |parts| ==> r[k] == TrimSpace(parts[k])
  {
    seq(|parts|, k requires 0 <= k < |parts| => TrimSpace(parts[k]))
  }

  /** The cells of a table row: the text between the outer pipes split at each pipe and trimmed; none for other lines. */
  function Cells(line: string): seq<string> {
    if IsTableRow(line) then TrimAll(Split(line[1..|line| - 1], '|')) else []
  }

  /** parseTableRow. */
  method ParseTableRow(line: string) returns (cells: seq<string>)
    ensures cells == Cells(line)
  {
    if !IsTableRow(line) {
      return [];
    }
    var parts := Split(line[1..|line| - 1], '|');
    cells := TrimEach(parts);
  }

  /** The trimming loop of parseTableRow. */
  method TrimEach(parts: seq<string>) returns (cells: seq<string>)
    ensures cells == TrimAll(parts)
  {
    cells := [];
    var k := 0;
    while k < |parts|
      invariant k <= |parts| && |cells| == k
      invariant forall m :: 0 <= m < k ==> cells[m] == TrimSpace(parts[m])
    {
      cells := cells + [TrimSpace(parts[k])];
      k := k + 1;
    }
  }

  lemma PipeFreeInside(s: string, r: string)
    requires Contains(s, r) && '|' !in s
    ensures '|' !in r
  {
    var i :| 0 <= i <= |s| && OccursAt(s, r, i);
    assert forall m :: 0 <= m < |r| ==> r[m] == s[i + m];
  }

  /**
   * A table row has one cell more than the pipes between its outer pipes,
   * and every cell is trimmed and holds no pipe; any other line has no cells.
   */
  lemma CellsShape(line: string)
    ensures IsTableRow(line) ==> |Cells(line)| == Count(line[1..|line| - 1], '|') + 1
    ensures !IsTableRow(line) ==> Cells(line) == []
    ensures forall k :: 0 <= k < |Cells(line)| ==> '|' !in Cells(line)[k] && Trimmed(Cells(line)[k])
  {
    if IsTableRow(line) {
      var parts := Split(line[1..|line| - 1], '|');
      SplitShape(line[1..|line| - 1], '|');
      forall k | 0 <= k < |parts| ensures '|' !in TrimSpace(parts[k]) {
        TrimSpaceIsPiece(parts[k]);
        PipeFreeInside(parts[k], TrimSpace(parts[k]));
      }
    }
  }

  /** Headers that name a row index: `#`, `No`, `No.` and `idx`, in any case. */
  predicate IsIndexHeader(h: string) {
    var hl := ToLower(h);
    hl == "#" || hl == "no" || hl == "no." || hl == "idx"
  }

  /** A header that cannot title an entry: an index header or an empty one. */
  predicate SkipsAsTitle(h: string) {
    IsIndexHeader(h) || ToLower(h) == ""
  }

  /** The title column: the first header that is neither empty nor an index header, or -1. */
  function MainIndex(headers: seq<string>): (r: int)
    ensures -1 <= r < |headers|
    ensures r >= 0 ==> !SkipsAsTitle(headers[r])
    ensures forall k :: 0 <= k < |headers| && (r < 0 || k < r) ==> SkipsAsTitle(headers[k])
  {
    if headers == [] then -1
    else if !SkipsAsTitle(headers[0]) then 0
    else var m := MainIndex(headers[1..]); if m < 0 then -1 else m + 1
  }

  /** A column that becomes a `header: value` detail. */
  predicate IsDetail(headers: seq<string>, cells: seq<string>, main: int, j: nat)
    requires j < |headers| && j < |cells|
  {
    j != main && cells[j] != "" && !IsIndexHeader(headers[j])
  }

  /** The `header: value` details of the first n columns. */
  function Details(headers: seq<string>, cells: seq<string>, main: int, n: nat): (r: seq<string>)
    requires n <= |headers| && n <= |cells|
    ensures |r| <= n
  {
    if n == 0 then []
    else
      var j := n - 1;
      Details(headers, cells, main, j) + (if IsDetail(headers, cells, main, j) then [headers[j] + ": " + cells[j]] else [])
  }

  /**
   * The details are exactly the `header: value` pairs of the columns other
   * than the title that have a value and a header naming no row index.
   */
  lemma {:induction false} DetailsExact(headers: seq<string>, cells: seq<string>, main: int, n: nat)
    requires n <= |headers| && n <= |cells|
    ensures forall j :: 0 <= j < n && IsDetail(headers, cells, main, j) ==>
      headers[j] + ": " + cells[j] in Details(headers, cells, main, n)
    ensures forall d :: d in Details(headers, cells, main, n) ==>
      exists j :: 0 <= j < n && IsDetail(headers, cells, main, j) && d == headers[j] + ": " + cells[j]
  {
    if n > 0 {
      DetailsExact(headers, cells, main, n - 1);
    }
  }

  /** The lines of one entry. */
  function EntryParts(headers: seq<string>, cells: seq<string>): seq<string> {
    var main := MainIndex(headers);
    if 0 <= main < |cells| then
      var details := Details(headers, cells, main, Min(|headers|, |cells|));
      [cells[main]] + (if |details| > 0 then ["  " + Join(details, " | ")] else [])
    else [Join(cells, " | ")]
  }

  function Min(a: nat, b: nat): nat {
    if a < b then a else b
  }

  /** The entry a data row becomes. */
  function FormatRow(headers: seq<string>, cells: seq<string>): string {
    Join(EntryParts(headers, cells), "\n")
  }

  /**
   * With a title column that the row reaches, the entry is the title cell,
   * followed by a line of details when there are any; otherwise it is the
   * cells joined with ` | `.
   */
  lemma FormatRowShape(headers: seq<string>, cells: seq<string>)
    ensures var main := MainIndex(headers);
      if 0 <= main < |cells| then
        var details := Details(headers, cells, main, Min(|headers|, |cells|));
        FormatRow(headers, cells) ==
          if details == [] then cells[main] else cells[main] + "\n" + ("  " + Join(details, " | "))
      else FormatRow(headers, cells) == Join(cells, " | ")
  {
    var main := MainIndex(headers);
    if 0 <= main < |cells| {
      var details := Details(headers, cells, main, Min(|headers|, |cells|));
      if details != [] {
        JoinTwo(cells[main], "  " + Join(details, " | "), "\n");
      }
    }
  }

  lemma JoinTwo(a: string, b: string, sep: string)
    ensures Join([a, b], sep) == a + sep + b
  {
    assert [a, b][1..] == [b];
  }

  /** formatTableRow. */
  method FormatTableRow(headers: seq<string>, cells: seq<string>) returns (entry: string)
    ensures entry == FormatRow(headers, cells)
  {
    var mainIdx := -1;
    var j := 0;
    while j < |headers|
      invariant j <= |headers|
      invariant forall k :: 0 <= k < j ==> SkipsAsTitle(headers[k])
    {
      if !SkipsAsTitle(headers[j]) {
        mainIdx := j;
        break;
      }
      j := j + 1;
    }
    assert mainIdx == MainIndex(headers);
    var parts: seq<string>;
    if 0 <= mainIdx < |cells| {
      parts := [cells[mainIdx]];
      var details := [];
      j := 0;
      while j < |headers| && j < |cells|
        invariant j <= |headers| && j <= |cells|
        invariant details == Details(headers, cells, mainIdx, j)
      {
        if IsDetail(headers, cells, mainIdx, j) {
          details := details + [headers[j] + ": " + cells[j]];
        }
        j := j + 1;
      }
      assert j == Min(|headers|, |cells|);
      if |details| > 0 {
        parts := parts + ["  " + Join(details, " | ")];
      }
    } else {
      parts := [Join(cells, " | ")];
    }
    entry := Join(parts, "\n");
  }

  /**
   * The output lines from line i on. A line that is not a table row is kept
   * as it is; a table row starts a table: its cells are the headers, a
   * separator line right after it is dropped, each data row becomes an
   * entry, entries are separated by an empty line and the table ends with one.
   */
  function ConvertFrom(lines: seq<string>, i: nat): seq<string>
    requires i <= |lines|
    decreases |lines| - i, 0
  {
    if i == |lines| then []
    else
      var headers := Cells(TrimSpace(lines[i]));
      if headers == [] then [lines[i]] + ConvertFrom(lines, i + 1)
      else
        RowsFrom(lines, headers, DataStart(lines, i), 0)
  }

  /** The first data row of a table whose header is line i: past the separator line, when there is one. */
  function DataStart(lines: seq<string>, i: nat): nat
    requires i < |lines|
  {
    if i + 1 < |lines| && IsTableSep(TrimSpace(lines[i + 1])) then i + 2 else i + 1
  }

  /** The entries of the data rows from line j on, rowNum of them already emitted, and what follows the table. */
  function RowsFrom(lines: seq<string>, headers: seq<string>, j: nat, rowNum: nat): seq<string>
    requires j <= |lines|
    decreases |lines| - j, 1
  {
    var cells := if j < |lines| then Cells(TrimSpace(lines[j])) else [];
    if cells == [] then [""] + ConvertFrom(lines, j)
    else (if rowNum > 0 then [""] else []) + [FormatRow(headers, cells)] + RowsFrom(lines, headers, j + 1, rowNum + 1)
  }

  /** convertMarkdownTables on the whole text. */
  function ConvertTables(text: string): string {
    Join(ConvertFrom(Split(text, '\n'), 0), "\n")
  }

  /** convertMarkdownTables: one pass over the lines, with an inner pass over each table's data rows. */
  method ConvertMarkdownTables(text: string) returns (out: string)
    ensures out == ConvertTables(text)
  {
    var lines := Split(text, '\n');
    var result := ConvertLines(lines);
    out := Join(result, "\n");
  }

  /** The outer loop of convertMarkdownTables over the lines of the text. */
  method ConvertLines(lines: seq<string>) returns (result: seq<string>)
    ensures result == ConvertFrom(lines, 0)
  {
    result := [];
    var i := 0;
    while i < |lines|
      invariant i <= |lines|
      invariant result + ConvertFrom(lines, i) == ConvertFrom(lines, 0)
      decreases |lines| - i
    {
      result, i := ConvertAt(lines, result, i);
    }
    assert result + [] == result;
  }

  /** One round of the outer loop: a line outside any table is copied, a header row starts a table. */
  method ConvertAt(lines: seq<string>, result: seq<string>, i: nat) returns (result': seq<string>, i': nat)
    requires i < |lines|
    ensures i < i' <= |lines|
    ensures result' + ConvertFrom(lines, i') == result + ConvertFrom(lines, i)
  {
    var headers := ParseTableRow(TrimSpace(lines[i]));
    if |headers| == 0 {
      result', i' := KeepLine(lines, result, i);
      return;
    }
    var start := SkipHeader(lines, i);
    result', i' := ConvertTable(lines, headers, result, start);
  }

  /** Past a header row at i and the separator line right after it, if there is one. */
  method SkipHeader(lines: seq<string>, i: nat) returns (start: nat)
    requires i < |lines|
    ensures start == DataStart(lines, i)
  {
    start := i + 1;
    if start < |lines| && IsTableSep(TrimSpace(lines[start])) {
      start := start + 1;
    }
  }

  /**
   * The data rows of a table from line `start` on, then the empty line that
   * ends it; `i'` is the first line after the table.
   */
  method ConvertTable(lines: seq<string>, headers: seq<string>, result: seq<string>, start: nat)
    returns (result': seq<string>, i': nat)
    requires start <= |lines|
    ensures start <= i' <= |lines|
    ensures result' + ConvertFrom(lines, i') == result + RowsFrom(lines, headers, start, 0)
  {
    result', i' := result, start;
    var rowNum := 0;
    while i' < |lines|
      invariant start <= i' <= |lines|
      invariant result' + RowsFrom(lines, headers, i', rowNum) == result + RowsFrom(lines, headers, start, 0)
      decreases |lines| - i'
    {
      var cells := ParseTableRow(TrimSpace(lines[i']));
      if |cells| == 0 {
        break;
      }
      result', i', rowNum := EmitRow(lines, headers, result', i', rowNum, cells);
    }
    result' := EndTable(lines, headers, result', i', rowNum);
  }

  /** A line outside any table is copied. */
  method KeepLine(lines: seq<string>, result: seq<string>, i: nat) returns (result': seq<string>, i': nat)
    requires i < |lines| && Cells(TrimSpace(lines[i])) == []
    ensures i' == i + 1 && result' + ConvertFrom(lines, i') == result + ConvertFrom(lines, i)
  {
    result', i' := result + [lines[i]], i + 1;
    AppendAssoc(result, [lines[i]], ConvertFrom(lines, i'));
  }

  /** One data row becomes an entry, after an empty line unless it is the first. */
  method EmitRow(lines: seq<string>, headers: seq<string>, result: seq<string>, i: nat, rowNum: nat, cells: seq<string>)
    returns (result': seq<string>, i': nat, rowNum': nat)
    requires i < |lines| && cells == Cells(TrimSpace(lines[i])) && cells != []
    ensures i' == i + 1 && rowNum' == rowNum + 1
    ensures result' + RowsFrom(lines, headers, i', rowNum') == result + RowsFrom(lines, headers, i, rowNum)
  {
    var sep: seq<string> := if rowNum > 0 then [""] else [];
    var entry := FormatTableRow(headers, cells);
    result', i', rowNum' := result + sep + [entry], i + 1, rowNum + 1;
    var rest := RowsFrom(lines, headers, i', rowNum');
    assert RowsFrom(lines, headers, i, rowNum) == sep + [entry] + rest;
    AppendAssoc(result, sep + [entry], rest);
    AppendAssoc(sep, [entry], rest);
    AppendAssoc(result, sep, [entry]);
  }

  /** The table ends at the first line that is not a data row, with an empty line. */
  method EndTable(lines: seq<string>, headers: seq<string>, result: seq<string>, i: nat, rowNum: nat)
    returns (result': seq<string>)
    requires i <= |lines| && (i == |lines| || Cells(TrimSpace(lines[i])) == [])
    ensures result' + ConvertFrom(lines, i) == result + RowsFrom(lines, headers, i, rowNum)
  {
    result' := result + [""];
    AppendAssoc(result, [""], ConvertFrom(lines, i));
  }

  /** The entry a data row line becomes under the given headers. */
  function RowEntry(headers: seq<string>, line: string): string {
    FormatRow(headers, Cells(TrimSpace(line)))
  }

  /** A data row gives its entry, after an empty line unless it is the first, then the rows after it. */
  lemma RowsFromRow(lines: seq<string>, headers: seq<string>, j: nat, rowNum: nat)
    requires j < |lines| && Cells(TrimSpace(lines[j])) != []
    ensures RowsFrom(lines, headers, j, rowNum) ==
      (if rowNum > 0 then [""] + [RowEntry(headers, lines[j])] else [RowEntry(headers, lines[j])])
      + RowsFrom(lines, headers, j + 1, rowNum + 1)
  {
    var entry, rest := RowEntry(headers, lines[j]), RowsFrom(lines, headers, j + 1, rowNum + 1);
    var sep: seq<string> := if rowNum > 0 then [""] else [];
    assert RowsFrom(lines, headers, j, rowNum) == sep + [entry] + rest;
    assert sep + [entry] == if rowNum > 0 then [""] + [entry] else [entry];
  }

  /** A line that is no data row, or the end of the text, ends the table with an empty line. */
  lemma RowsFromEnd(lines: seq<string>, headers: seq<string>, m: nat, rowNum: nat)
    requires m == |lines| || (m < |lines| && Cells(TrimSpace(lines[m])) == [])
    ensures RowsFrom(lines, headers, m, rowNum) == [""] + ConvertFrom(lines, m)
  {
  }

  /**
   * A header row followed by a data row (past the separator line, if any):
   * the first entry is that row formatted under the header row's cells, and
   * the rows after it follow with one entry already emitted.
   */
  lemma TableStartsAtHeader(lines: seq<string>, i: nat)
    requires i < |lines| && Cells(TrimSpace(lines[i])) != []
    requires DataStart(lines, i) < |lines| && Cells(TrimSpace(lines[DataStart(lines, i)])) != []
    ensures var headers, j := Cells(TrimSpace(lines[i])), DataStart(lines, i);
      ConvertFrom(lines, i) == [FormatRow(headers, Cells(TrimSpace(lines[j])))] + RowsFrom(lines, headers, j + 1, 1)
  {
    RowsFromRow(lines, Cells(TrimSpace(lines[i])), DataStart(lines, i), 0);
  }

  /** Lines none of which is a table row are passed through unchanged. */
  lemma {:induction false} ConvertWithoutTables(lines: seq<string>, i: nat)
    requires i <= |lines|
    requires forall k :: i <= k < |lines| ==> !IsTableRow(TrimSpace(lines[k]))
    ensures ConvertFrom(lines, i) == lines[i..]
    decreases |lines| - i
  {
    if i < |lines| {
      ConvertWithoutTables(lines, i + 1);
      assert lines[i..] == [lines[i]] + lines[i + 1..];
    }
  }

  /** Text without a table row is left exactly as it was. */
  lemma TextWithoutTablesUnchanged(text: string)
    requires forall k :: 0 <= k < |Split(text, '\n')| ==> !IsTableRow(TrimSpace(Split(text, '\n')[k]))
    ensures ConvertTables(text) == text
  {
    var lines := Split(text, '\n');
    ConvertWithoutTables(lines, 0);
    assert lines[0..] == lines;
    JoinSplit(text, '\n');
  }

  // ---- Stream buffers ----

  /** The streamed text gathered for one chat, and whether it changed since the last flush. */
  datatype StreamBuffer = StreamBuffer(content: string, dirty: bool)

  /** The longest preview, in bytes, before the marker is added. */
  const PreviewLimit: nat := 3500

  /** The preview shown while streaming: at most 3500 bytes, then a marker. */
  function Preview(content: string): (p: string)
    ensures |content| <= PreviewLimit ==> p == content
    ensures |content| > PreviewLimit ==> p == content[..PreviewLimit] + "\n\n..."
    ensures |p| <= PreviewLimit + 5
  {
    if |content| > PreviewLimit then content[..PreviewLimit] + "\n\n..." else content
  }

  /** The per-chat stream buffers of a Telegram channel. */
  class StreamBuffers {
    var buffers: map<string, StreamBuffer>

    constructor ()
      ensures buffers == map[]
    {
      buffers := map[];
    }

    /** HandleStreamDelta: a done delta drops the chat's buffer; any other appends to it and marks it dirty. */
    method HandleStreamDelta(d: Bus.StreamDelta)
      modifies this
      ensures d.done ==> buffers == old(buffers) - {d.chatId}
      ensures !d.done ==> buffers == old(buffers)[d.chatId :=
        StreamBuffer((if d.chatId in old(buffers) then old(buffers)[d.chatId].content else "") + d.delta, true)]
    {
      if d.done {
        buffers := buffers - {d.chatId};
        return;
      }
      var buf := if d.chatId in buffers then buffers[d.chatId] else StreamBuffer("", false);
      buffers := buffers[d.chatId := StreamBuffer(buf.content + d.delta, true)];
    }

    /**
     * The flush of one chat's buffer: a dirty buffer becomes clean, and its
     * preview is returned when it has text and the chat id parses.
     */
    method Flush(chatId: string, chatIdParses: bool) returns (preview: Option<string>)
      modifies this
      ensures chatId in old(buffers) && old(buffers)[chatId].dirty ==>
        buffers == old(buffers)[chatId := old(buffers)[chatId].(dirty := false)] &&
        preview == (if old(buffers)[chatId].content != "" && chatIdParses
                    then Some(Preview(old(buffers)[chatId].content)) else None)
      ensures !(chatId in old(buffers) && old(buffers)[chatId].dirty) ==> buffers == old(buffers) && preview.None?
    {
      if chatId !in buffers || !buffers[chatId].dirty {
        return None;
      }
      var content := buffers[chatId].content;
      buffers := buffers[chatId := buffers[chatId].(dirty := false)];
      if content == "" || !chatIdParses {
        return None;
      }
      var display := content;
      if |display| > PreviewLimit {
        display := display[..PreviewLimit] + "\n\n...";
      }
      return Some(display);
    }
  }

  /** The buffer of a chat is the concatenation of the deltas since its last done delta. */
  method StreamThenFlush(chatId: string, a: string, b: string) returns (preview: Option<string>, again: Option<string>)
    requires a + b != ""
    ensures preview == Some(Preview(a + b))
    ensures again == None
  {
    var bufs := new StreamBuffers();
    bufs.HandleStreamDelta(Bus.StreamDelta("telegram", chatId, a, false));
    assert bufs.buffers[chatId] == StreamBuffer("" + a, true);
    bufs.HandleStreamDelta(Bus.StreamDelta("telegram", chatId, b, false));
    assert bufs.buffers[chatId].content == ("" + a) + b == a + b;
    preview := bufs.Flush(chatId, true);
    again := bufs.Flush(chatId, true);
  }
}
