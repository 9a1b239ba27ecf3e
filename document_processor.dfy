/** Loading a document's text and cutting it into overlapping, boundary-aware chunks. */
module DocumentProcessor {
  import opened Common
  import Config

  /** A chunk: the stripped text of its window, and its metadata, kept as its parts: the document's
      metadata, the chunk's number, and its window's start and unclamped end. `MetadataDict` builds the
      metadata dictionary the chunk carries. */
  datatype DocumentChunk = DocumentChunk(content: string, documentMetadata: Metadata, chunkId: nat, startChar: nat, endChar: int)

  /** What the readers of each file type extract: the decoded text of a text or Markdown file,
      the text of each PDF page, the text of each DOCX paragraph. */
  datatype FileContents = FileContents(text: string, pdfPages: seq<string>, docxParagraphs: seq<string>)

  const SupportedTypes: set<string> := {".pdf", ".txt", ".docx", ".md"}

  // ---------------------------------------------------------------------------
  // Paths

  /** Path.name: the part after the last '/'. */
  function BaseName(path: string): (name: string)
    ensures |name| <= |path| && name == path[|path| - |name|..]
    ensures forall k | 0 <= k < |name| :: name[k] != '/'
  {
    path[RFind(path, '/') + 1..]
  }

  /** Path.suffix: the name from its last '.', when that dot is neither the first nor the last character. */
  function Suffix(name: string): (r: string)
    ensures r == "" || (2 <= |r| < |name| && r[0] == '.' && r == name[|name| - |r|..])
    ensures forall k | 1 <= k < |r| :: r[k] != '.'
  {
    var i := RFind(name, '.');
    if 0 < i < |name| - 1 then name[i..] else ""
  }

  /** Path(path).suffix.lower() */
  function FileType(path: string): string {
    Lower(Suffix(BaseName(path)))
  }

  lemma BaseNameLower(path: string)
    ensures BaseName(Lower(path)) == Lower(BaseName(path))
  {
    RFindLower(path, '/');
    LowerDrop(path, RFind(path, '/') + 1);
  }

  lemma SuffixLower(name: string)
    ensures Suffix(Lower(name)) == Lower(Suffix(name))
  {
    RFindLower(name, '.');
    var j := RFind(name, '.');
    if 0 < j < |name| - 1 {
      LowerDrop(name, j);
    }
  }

  /** The file type does not depend on the case of the path. */
  lemma FileTypeIgnoresCase(path: string)
    ensures FileType(Lower(path)) == FileType(path)
  {
    BaseNameLower(path);
    SuffixLower(BaseName(path));
    LowerIdempotent(Suffix(BaseName(path)));
  }

  // ---------------------------------------------------------------------------
  // Loading

  function NonBlankParts(parts: seq<string>): (r: seq<string>)
    ensures |r| <= |parts|
    ensures forall k | 0 <= k < |r| :: !Blank(r[k])
  {
    if parts == [] then []
    else (if Blank(parts[0]) then [] else [parts[0]]) + NonBlankParts(parts[1..])
  }

  lemma {:induction false} NonBlankPartsAppend(parts: seq<string>, p: string)
    ensures NonBlankParts(parts + [p]) == NonBlankParts(parts) + (if Blank(p) then [] else [p])
  {
    if parts == [] {
      assert parts + [p] == [p];
    } else {
      assert (parts + [p])[1..] == parts[1..] + [p];
      NonBlankPartsAppend(parts[1..], p);
    }
  }

  lemma {:induction false} NonBlankPartsEmpty(parts: seq<string>)
    ensures NonBlankParts(parts) == [] <==> forall k | 0 <= k < |parts| :: Blank(parts[k])
  {
    if parts != [] {
      NonBlankPartsEmpty(parts[1..]);
      assert forall k | 1 <= k < |parts| :: parts[k] == parts[1..][k - 1];
    }
  }

  /** The parts that are not blank, joined by a blank line: the text of a DOCX file
      (one part per paragraph), and of a PDF file (one part per page). */
  function JoinNonBlank(parts: seq<string>): string {
    Join("\n\n", NonBlankParts(parts))
  }

  /** The extracted text is empty exactly when every page or paragraph is blank. */
  lemma JoinNonBlankEmpty(parts: seq<string>)
    ensures JoinNonBlank(parts) == "" <==> forall k | 0 <= k < |parts| :: Blank(parts[k])
  {
    var nb := NonBlankParts(parts);
    assert forall k | 0 <= k < |nb| :: nb[k] != "";
    JoinEmpty("\n\n", nb);
    NonBlankPartsEmpty(parts);
  }

  /** The PDF reader's loop: keep each page whose text is not blank, then join. */
  method LoadPdf(pages: seq<string>) returns (text: string)
    ensures text == JoinNonBlank(pages)
  {
    var textParts: seq<string> := [];
    for i := 0 to |pages|
      invariant textParts == NonBlankParts(pages[..i])
    {
      assert pages[..i + 1] == pages[..i] + [pages[i]];
      NonBlankPartsAppend(pages[..i], pages[i]);
      StripEmpty(pages[i]);
      if Strip(pages[i]) != "" {
        textParts := textParts + [pages[i]];
      }
    }
    assert pages[..|pages|] == pages;
    text := Join("\n\n", textParts);
  }

  /** Dispatch on the lower-cased suffix; Markdown is read as text, anything else is refused. */
  function LoadDocument(path: string, file: FileContents): (r: Result<string>)
    ensures r.Failure? <==> FileType(path) !in SupportedTypes
    ensures r.Failure? ==> r.error == ValueError("Unsupported file type: " + FileType(path))
    ensures FileType(path) == ".txt" || FileType(path) == ".md" ==> r == Success(file.text)
    ensures FileType(path) == ".pdf" ==> r == Success(JoinNonBlank(file.pdfPages))
    ensures FileType(path) == ".docx" ==> r == Success(JoinNonBlank(file.docxParagraphs))
  {
    var extension := FileType(path);
    if extension == ".pdf" then Success(JoinNonBlank(file.pdfPages))
    else if extension == ".txt" then Success(file.text)
    else if extension == ".docx" then Success(JoinNonBlank(file.docxParagraphs))
    else if extension == ".md" then Success(file.text)
    else Failure(ValueError("Unsupported file type: " + extension))
  }

  // ---------------------------------------------------------------------------
  // Windows

  /** The chunk size and overlap for which every window moves the start forward, whatever the text. */
  predicate Advances(chunkSize: int, chunkOverlap: int) {
    0 < chunkSize && chunkOverlap < chunkSize && chunkOverlap <= chunkSize / 2 + 1
  }

  /** max(window.rfind('.'), window.rfind('\n')): the last sentence end or line break, or -1. */
  function BreakPoint(window: string): (bp: int)
    ensures -1 <= bp < |window|
    ensures bp >= 0 ==> window[bp] == '.' || window[bp] == '\n'
    ensures forall k | bp < k < |window| :: window[k] != '.' && window[k] != '\n'
  {
    Max(RFind(window, '.'), RFind(window, '\n'))
  }

  /** The window at `start` is cut back to its break point: only when the full window stops short
      of the end of the text and the break point lies beyond half the chunk size. */
  predicate Breaks(text: string, chunkSize: int, start: nat)
    requires 0 < chunkSize
  {
    start + chunkSize < |text| && 2 * BreakPoint(text[start..start + chunkSize]) > chunkSize
  }

  /** The `end` of the window at `start`. It is never clamped, so it may lie beyond the text. */
  function WindowEnd(text: string, chunkSize: int, start: nat): (end: int)
    requires 0 < chunkSize
    ensures start < end <= start + chunkSize
    ensures !Breaks(text, chunkSize, start) ==> end == start + chunkSize
    ensures Breaks(text, chunkSize, start) ==>
      && end < |text|
      && 2 * (end - start - 1) > chunkSize
      && (text[end - 1] == '.' || text[end - 1] == '\n')
  {
    if Breaks(text, chunkSize, start) then
      var window := text[start..start + chunkSize];
      start + BreakPoint(window) + 1
    else start + chunkSize
  }

  /** A cut-back window ends at the last '.' or '\n' of the full window. */
  lemma BreakIsLast(text: string, chunkSize: int, start: nat)
    requires 0 < chunkSize && Breaks(text, chunkSize, start)
    ensures forall k | WindowEnd(text, chunkSize, start) <= k < start + chunkSize :: text[k] != '.' && text[k] != '\n'
  {
    var window := text[start..start + chunkSize];
    assert forall k | start <= k < start + chunkSize :: text[k] == window[k - start];
  }

  /** The loop's next start, `end - chunk_overlap`; nothing in the source bounds the overlap. */
  function NextStart(text: string, chunkSize: int, chunkOverlap: int, start: nat): (next: int)
    requires 0 < chunkSize
    ensures next > start <==> WindowEnd(text, chunkSize, start) - start > chunkOverlap
  {
    WindowEnd(text, chunkSize, start) - chunkOverlap
  }

  /** With the guard, every window moves the start forward. */
  lemma AdvancesGuaranteesProgress(text: string, chunkSize: int, chunkOverlap: int, start: nat)
    requires Advances(chunkSize, chunkOverlap)
    ensures NextStart(text, chunkSize, chunkOverlap, start) > start
  {
    var end := WindowEnd(text, chunkSize, start);
    if Breaks(text, chunkSize, start) {
      assert chunkSize == 2 * (chunkSize / 2) + chunkSize % 2;
      assert end - start - 1 >= chunkSize / 2 + 1;
    }
  }

  /** Without it the start can stay where it was, even with an overlap below the chunk size:
      here the break after "aaaaaa." ends the first window at 7, and 7 - 7 is 0 again. */
  lemma StallsWithoutGuard()
    ensures NextStart("aaaaaa.aaaaaaa", 10, 7, 0) == 0
    ensures NextStart("aaaaaaaaaaaaaa", 10, 10, 0) == 0
  {
    var t := "aaaaaa.aaaaaaa";
    RFindAt(t[0..10], '.', 6);
    RFindAbsent(t[0..10], '\n');
    assert Breaks(t, 10, 0);
    var u := "aaaaaaaaaaaaaa";
    RFindAbsent(u[0..10], '.');
    RFindAbsent(u[0..10], '\n');
    assert !Breaks(u, 10, 0);
  }

  /** With an overlap of at least the chunk size no window moves the start forward. */
  lemma StartNeverIncreases(text: string, chunkSize: int, chunkOverlap: int, start: nat)
    requires 0 < chunkSize <= chunkOverlap
    ensures NextStart(text, chunkSize, chunkOverlap, start) <= start
  {
  }

  /** The guard is the weakest one: for any other positive chunk size some text leaves the first
      window where it started or before. */
  lemma GuardIsTight(chunkSize: int, chunkOverlap: int)
    requires 0 < chunkSize && !Advances(chunkSize, chunkOverlap)
    ensures exists text: string :: |text| > 0 && NextStart(text, chunkSize, chunkOverlap, 0) <= 0
  {
    if chunkOverlap >= chunkSize {
      var text := seq(chunkSize + 1, _ => 'a');
      var window := text[0..chunkSize];
      RFindAbsent(window, '.');
      RFindAbsent(window, '\n');
      assert !Breaks(text, chunkSize, 0);
      assert NextStart(text, chunkSize, chunkOverlap, 0) <= 0;
    } else {
      var h := chunkSize / 2 + 1;
      var text := seq(h, _ => 'a') + ['.'] + seq(chunkSize, _ => 'a');
      var window := text[0..chunkSize];
      assert window[h] == '.';
      RFindAt(window, '.', h);
      RFindAbsent(window, '\n');
      assert BreakPoint(window) == h;
      assert Breaks(text, chunkSize, 0);
      assert NextStart(text, chunkSize, chunkOverlap, 0) <= 0;
    }
  }

  /** A window the loop visits: its start, its unclamped end, and text[start:end], which Python
      clamps to the text. */
  datatype Window = Window(start: nat, end: int, text: string)

  function WindowAt(text: string, chunkSize: int, start: nat): (w: Window)
    requires 0 < chunkSize && start < |text|
    ensures w.start == start && w.end == WindowEnd(text, chunkSize, start)
  {
    var end := WindowEnd(text, chunkSize, start);
    Window(start, end, text[start..Min(end, |text|)])
  }

  /** All windows the loop visits from `start`, in order. */
  function Windows(text: string, chunkSize: int, chunkOverlap: int, start: nat): (r: seq<Window>)
    requires Advances(chunkSize, chunkOverlap)
    ensures forall k | 0 <= k < |r| :: start <= r[k].start < |text|
    ensures r != [] <==> start < |text|
    ensures r != [] ==> r[0] == WindowAt(text, chunkSize, start)
    decreases |text| - start
  {
    if start >= |text| then []
    else
      AdvancesGuaranteesProgress(text, chunkSize, chunkOverlap, start);
      [WindowAt(text, chunkSize, start)] + Windows(text, chunkSize, chunkOverlap, NextStart(text, chunkSize, chunkOverlap, start))
  }

  /** The windows start where required: each is the window at its start, each next one starts
      at the previous end minus the overlap, and after the last one the next start reaches the
      end of the text. */
  lemma {:induction false} WindowsChain(text: string, chunkSize: int, chunkOverlap: int, start: nat)
    requires Advances(chunkSize, chunkOverlap)
    ensures var r := Windows(text, chunkSize, chunkOverlap, start);
      && (forall w | w in r :: w.start < |text| && w == WindowAt(text, chunkSize, w.start))
      && (forall i | 0 <= i < |r| - 1 :: r[i + 1].start == r[i].end - chunkOverlap)
      && (r != [] ==> r[|r| - 1].end - chunkOverlap >= |text|)
    decreases |text| - start
  {
    if start < |text| {
      AdvancesGuaranteesProgress(text, chunkSize, chunkOverlap, start);
      var next := NextStart(text, chunkSize, chunkOverlap, start);
      WindowsChain(text, chunkSize, chunkOverlap, next);
      var r := Windows(text, chunkSize, chunkOverlap, start);
      var rest := Windows(text, chunkSize, chunkOverlap, next);
      assert r == [WindowAt(text, chunkSize, start)] + rest;
      assert forall i | 1 <= i < |r| :: r[i] == rest[i - 1];
    }
  }

  lemma WindowsCons(text: string, chunkSize: int, chunkOverlap: int, start: nat, next: nat)
    requires Advances(chunkSize, chunkOverlap) && start < |text|
    requires next == NextStart(text, chunkSize, chunkOverlap, start)
    ensures next > start
    ensures Windows(text, chunkSize, chunkOverlap, start)
      == [WindowAt(text, chunkSize, start)] + Windows(text, chunkSize, chunkOverlap, next)
  {
    AdvancesGuaranteesProgress(text, chunkSize, chunkOverlap, start);
  }

  /** One turn of the chunking loop keeps its invariant: the chunks so far, followed by the
      chunks of the windows still to visit, stay the same sequence. */
  lemma EmitStepInvariant(metadata: Metadata, w: Window, tail: seq<Window>, before: seq<DocumentChunk>, beforeId: nat, total: seq<DocumentChunk>)
    requires before + EmitChunks(metadata, [w] + tail, beforeId) == total
    ensures (before + if Strip(w.text) != "" then [ChunkOf(metadata, w, beforeId)] else [])
      + EmitChunks(metadata, tail, if Strip(w.text) != "" then beforeId + 1 else beforeId)
      == total
  {
    EmitChunksCons(metadata, w, tail, beforeId);
    var emitted := if Strip(w.text) != "" then [ChunkOf(metadata, w, beforeId)] else [];
    var rest := EmitChunks(metadata, tail, if Strip(w.text) != "" then beforeId + 1 else beforeId);
    AppendAssociative(before, emitted, rest);
  }

  /** The whole step of the loop: the window at start, kept when its stripped text is not
      blank, followed by the chunks of the windows from the next start. */
  lemma ChunkStep(text: string, metadata: Metadata, chunkSize: int, chunkOverlap: int, start: nat, end: int,
                  piece: string, before: seq<DocumentChunk>, beforeId: nat, next: int)
    requires Advances(chunkSize, chunkOverlap) && start < |text|
    requires end == WindowEnd(text, chunkSize, start) && piece == text[start..Min(end, |text|)]
    requires before + EmitChunks(metadata, Windows(text, chunkSize, chunkOverlap, start), beforeId)
      == Chunks(text, metadata, chunkSize, chunkOverlap)
    requires next == end - chunkOverlap
    ensures start < next
    ensures Strip(piece) != "" ==>
      (before + [DocumentChunk(Strip(piece), metadata, beforeId, start, end)])
        + EmitChunks(metadata, Windows(text, chunkSize, chunkOverlap, next), beforeId + 1)
      == Chunks(text, metadata, chunkSize, chunkOverlap)
    ensures Strip(piece) == "" ==>
      before + EmitChunks(metadata, Windows(text, chunkSize, chunkOverlap, next), beforeId)
      == Chunks(text, metadata, chunkSize, chunkOverlap)
  {
    var w := WindowAt(text, chunkSize, start);
    WindowsCons(text, chunkSize, chunkOverlap, start, next);
    EmitStepInvariant(metadata, w, Windows(text, chunkSize, chunkOverlap, next), before, beforeId,
                      Chunks(text, metadata, chunkSize, chunkOverlap));
  }

  /** Position p lies inside one of the windows. */
  predicate Covers(windows: seq<Window>, p: int) {
    exists i | 0 <= i < |windows| :: windows[i].start <= p < windows[i].end
  }

  /** With a non-negative overlap the windows leave no gap: every position of the text lies
      inside some window. */
  lemma {:induction false} WindowsCover(text: string, chunkSize: int, chunkOverlap: int, start: nat, p: nat)
    requires Advances(chunkSize, chunkOverlap) && 0 <= chunkOverlap
    requires start <= p < |text|
    ensures Covers(Windows(text, chunkSize, chunkOverlap, start), p)
    decreases |text| - start
  {
    var r := Windows(text, chunkSize, chunkOverlap, start);
    if p < WindowEnd(text, chunkSize, start) {
      assert r[0].start <= p < r[0].end;
    } else {
      var next := NextStart(text, chunkSize, chunkOverlap, start);
      WindowsCons(text, chunkSize, chunkOverlap, start, next);
      WindowsCover(text, chunkSize, chunkOverlap, next, p);
      CoversCons(WindowAt(text, chunkSize, start), Windows(text, chunkSize, chunkOverlap, next), p);
    }
  }

  lemma CoversCons(w: Window, rest: seq<Window>, p: int)
    requires Covers(rest, p)
    ensures Covers([w] + rest, p)
  {
    var i :| 0 <= i < |rest| && rest[i].start <= p < rest[i].end;
    assert ([w] + rest)[i + 1] == rest[i];
  }

  // ---------------------------------------------------------------------------
  // Chunks

  /** The chunk's metadata dictionary: the document's, overridden by chunk_id, start_char and end_char. */
  function MetadataDict(c: DocumentChunk): Metadata {
    c.documentMetadata + map["chunk_id" := VInt(c.chunkId), "start_char" := VInt(c.startChar), "end_char" := VInt(c.endChar)]
  }

  /** The three chunk keys are added or overridden; every other key keeps the document's value. */
  lemma DictFacts(c: DocumentChunk)
    ensures var m := MetadataDict(c);
      && m.Keys == c.documentMetadata.Keys + {"chunk_id", "start_char", "end_char"}
      && m["chunk_id"] == VInt(c.chunkId) && m["start_char"] == VInt(c.startChar) && m["end_char"] == VInt(c.endChar)
      && forall key | key in c.documentMetadata && key != "chunk_id" && key != "start_char" && key != "end_char" ::
           m[key] == c.documentMetadata[key]
  {
    assert "chunk_id"[0] != "end_char"[0] && "chunk_id"[0] != "start_char"[0] && "start_char"[0] != "end_char"[0];
  }

  /** The chunk of a window: its stripped text. */
  function ChunkOf(metadata: Metadata, w: Window, chunkId: nat): DocumentChunk {
    DocumentChunk(Strip(w.text), metadata, chunkId, w.start, w.end)
  }

  /** The chunks of the given windows, numbered from `chunkId` on; a window whose stripped text
      is empty yields none. */
  function EmitChunks(metadata: Metadata, windows: seq<Window>, chunkId: nat): seq<DocumentChunk> {
    if windows == [] then []
    else if Strip(windows[0].text) != "" then
      [ChunkOf(metadata, windows[0], chunkId)] + EmitChunks(metadata, windows[1..], chunkId + 1)
    else EmitChunks(metadata, windows[1..], chunkId)
  }

  lemma EmitChunksCons(metadata: Metadata, w: Window, tail: seq<Window>, chunkId: nat)
    ensures EmitChunks(metadata, [w] + tail, chunkId)
      == (if Strip(w.text) != "" then [ChunkOf(metadata, w, chunkId)] else [])
         + EmitChunks(metadata, tail, if Strip(w.text) != "" then chunkId + 1 else chunkId)
  {
    assert ([w] + tail)[1..] == tail;
  }

  /** The chunks of a text, as the chunking loop produces them. */
  function Chunks(text: string, metadata: Metadata, chunkSize: int, chunkOverlap: int): seq<DocumentChunk>
    requires Advances(chunkSize, chunkOverlap)
  {
    EmitChunks(metadata, Windows(text, chunkSize, chunkOverlap, 0), 0)
  }

  /** What every emitted chunk satisfies: it carries the document's metadata and its window
      [start_char, end_char), which lies within chunk_size and starts inside the text but may end
      beyond it; its content is that window's text, clamped to the text and stripped, and is not
      empty; a window shorter than chunk_size ends just after a '.' or '\n' lying beyond half the
      chunk size. */
  predicate WellFormedChunk(text: string, metadata: Metadata, chunkSize: int, c: DocumentChunk) {
    var s, e := c.startChar, c.endChar;
    && c.documentMetadata == metadata
    && s < |text| && s < e <= s + chunkSize
    && c.content == Strip(text[s..Min(e, |text|)]) && c.content != ""
    && (e < s + chunkSize ==> e < |text| && (text[e - 1] == '.' || text[e - 1] == '\n') && 2 * (e - s - 1) > chunkSize)
  }

  lemma ChunkOfWellFormed(text: string, metadata: Metadata, chunkSize: int, start: nat, chunkId: nat)
    requires 0 < chunkSize && start < |text|
    requires Strip(WindowAt(text, chunkSize, start).text) != ""
    ensures WellFormedChunk(text, metadata, chunkSize, ChunkOf(metadata, WindowAt(text, chunkSize, start), chunkId))
  {
  }

  /** The windows whose stripped text is not empty, in order. */
  function NonBlankWindows(windows: seq<Window>): (r: seq<Window>)
    ensures |r| <= |windows|
  {
    if windows == [] then []
    else (if Strip(windows[0].text) != "" then [windows[0]] else []) + NonBlankWindows(windows[1..])
  }

  lemma {:induction false} NonBlankWindowsFrom(windows: seq<Window>)
    ensures forall w | w in NonBlankWindows(windows) :: w in windows && Strip(w.text) != ""
  {
    if windows != [] {
      NonBlankWindowsFrom(windows[1..]);
    }
  }

  /** The chunks of the given windows, all of them, numbered from `chunkId` on. */
  function NumberChunks(metadata: Metadata, windows: seq<Window>, chunkId: nat): (r: seq<DocumentChunk>)
    ensures |r| == |windows|
  {
    if windows == [] then []
    else [ChunkOf(metadata, windows[0], chunkId)] + NumberChunks(metadata, windows[1..], chunkId + 1)
  }

  lemma {:induction false} NumberChunksAt(metadata: Metadata, windows: seq<Window>, chunkId: nat, k: nat)
    requires k < |windows|
    ensures NumberChunks(metadata, windows, chunkId)[k] == ChunkOf(metadata, windows[k], chunkId + k)
  {
    if k > 0 {
      NumberChunksAt(metadata, windows[1..], chunkId + 1, k - 1);
    }
  }

  /** Emitting is numbering the non-blank windows. */
  lemma {:induction false} EmitChunksShape(metadata: Metadata, windows: seq<Window>, chunkId: nat)
    ensures EmitChunks(metadata, windows, chunkId) == NumberChunks(metadata, NonBlankWindows(windows), chunkId)
  {
    if windows != [] {
      var emits := Strip(windows[0].text) != "";
      var nextId := if emits then chunkId + 1 else chunkId;
      EmitChunksShape(metadata, windows[1..], nextId);
      var nbRest := NonBlankWindows(windows[1..]);
      if emits {
        var nb := [windows[0]] + nbRest;
        assert NonBlankWindows(windows) == nb;
        assert nb[1..] == nbRest;
      } else {
        assert NonBlankWindows(windows) == nbRest;
      }
    }
  }

  lemma ChunkAtWellFormed(text: string, metadata: Metadata, chunkSize: int, chunkOverlap: int, k: nat)
    requires Advances(chunkSize, chunkOverlap)
    requires k < |Chunks(text, metadata, chunkSize, chunkOverlap)|
    ensures var c := Chunks(text, metadata, chunkSize, chunkOverlap)[k];
      c.chunkId == k && WellFormedChunk(text, metadata, chunkSize, c)
  {
    var ws := Windows(text, chunkSize, chunkOverlap, 0);
    var nb := NonBlankWindows(ws);
    EmitChunksShape(metadata, ws, 0);
    NumberChunksAt(metadata, nb, 0, k);
    var w := nb[k];
    NonBlankWindowMember(ws, w);
    WindowMember(text, chunkSize, chunkOverlap, w);
    ChunkOfWellFormed(text, metadata, chunkSize, w.start, k);
  }

  lemma NonBlankWindowMember(windows: seq<Window>, w: Window)
    requires w in NonBlankWindows(windows)
    ensures w in windows && Strip(w.text) != ""
  {
    NonBlankWindowsFrom(windows);
  }

  lemma WindowMember(text: string, chunkSize: int, chunkOverlap: int, w: Window)
    requires Advances(chunkSize, chunkOverlap)
    requires w in Windows(text, chunkSize, chunkOverlap, 0)
    ensures w.start < |text| && w == WindowAt(text, chunkSize, w.start)
  {
    WindowsChain(text, chunkSize, chunkOverlap, 0);
  }

  /** The chunks of a text are numbered 0, 1, 2, ... and each is well formed; there are at most as
      many as windows. */
  lemma ChunksWellFormed(text: string, metadata: Metadata, chunkSize: int, chunkOverlap: int)
    requires Advances(chunkSize, chunkOverlap)
    ensures var r := Chunks(text, metadata, chunkSize, chunkOverlap);
      && |r| <= |Windows(text, chunkSize, chunkOverlap, 0)|
      && forall k | 0 <= k < |r| :: r[k].chunkId == k && WellFormedChunk(text, metadata, chunkSize, r[k])
  {
    var ws := Windows(text, chunkSize, chunkOverlap, 0);
    EmitChunksShape(metadata, ws, 0);
    var r := Chunks(text, metadata, chunkSize, chunkOverlap);
    forall k | 0 <= k < |r|
      ensures r[k].chunkId == k && WellFormedChunk(text, metadata, chunkSize, r[k])
    {
      ChunkAtWellFormed(text, metadata, chunkSize, chunkOverlap, k);
    }
  }

  /** Empty text yields no chunk. */
  lemma EmptyTextNoChunks(metadata: Metadata, chunkSize: int, chunkOverlap: int)
    requires Advances(chunkSize, chunkOverlap)
    ensures Chunks("", metadata, chunkSize, chunkOverlap) == []
  {
  }

  /** A text no longer than chunk_size - chunk_overlap is one window, hence at most one chunk:
      the whole text stripped, with end_char = chunk_size. */
  lemma ShortTextOneWindow(text: string, metadata: Metadata, chunkSize: int, chunkOverlap: int)
    requires Advances(chunkSize, chunkOverlap) && 0 <= chunkOverlap
    requires 0 < |text| <= chunkSize - chunkOverlap
    ensures Windows(text, chunkSize, chunkOverlap, 0) == [Window(0, chunkSize, text)]
    ensures Chunks(text, metadata, chunkSize, chunkOverlap)
      == if Blank(text) then [] else [DocumentChunk(Strip(text), metadata, 0, 0, chunkSize)]
  {
    assert !Breaks(text, chunkSize, 0);
    assert WindowAt(text, chunkSize, 0) == Window(0, chunkSize, text) by {
      assert text[0..|text|] == text;
    }
    assert Windows(text, chunkSize, chunkOverlap, chunkSize - chunkOverlap) == [];
    var w := Window(0, chunkSize, text);
    assert Windows(text, chunkSize, chunkOverlap, 0) == [w];
    assert [w][1..] == [];
    StripEmpty(text);
    assert EmitChunks(metadata, [], 0) == [] && EmitChunks(metadata, [], 1) == [];
    assert ChunkOf(metadata, w, 0) == DocumentChunk(Strip(text), metadata, 0, 0, chunkSize);
  }

  /** A text longer than chunk_size - chunk_overlap but no longer than chunk_size is visited twice:
      the loop runs once more after the window that already reached the end, and emits the
      overlap tail `text[chunk_size - chunk_overlap:]` again, stripped, when it is not blank. */
  lemma ShortTextTwoWindows(text: string, metadata: Metadata, chunkSize: int, chunkOverlap: int)
    requires Advances(chunkSize, chunkOverlap) && 0 <= chunkOverlap
    requires chunkSize - chunkOverlap < |text| <= chunkSize && |text| <= 2 * (chunkSize - chunkOverlap)
    ensures var second := chunkSize - chunkOverlap;
      Windows(text, chunkSize, chunkOverlap, 0) == [Window(0, chunkSize, text), Window(second, second + chunkSize, text[second..])]
    ensures var tail := text[chunkSize - chunkOverlap..];
      var r := Chunks(text, metadata, chunkSize, chunkOverlap);
      && |r| == (if Blank(text) then 0 else if Blank(tail) then 1 else 2)
      && (r != [] ==> r[0].content == Strip(text))
      && (|r| == 2 ==> r[1].content == Strip(tail))
  {
    var second := chunkSize - chunkOverlap;
    var w0 := Window(0, chunkSize, text);
    var w1 := Window(second, second + chunkSize, text[second..]);
    assert !Breaks(text, chunkSize, 0);
    assert !Breaks(text, chunkSize, second);
    assert WindowAt(text, chunkSize, 0) == w0 by {
      assert text[0..|text|] == text;
    }
    assert WindowAt(text, chunkSize, second) == w1;
    assert Windows(text, chunkSize, chunkOverlap, 2 * second) == [];
    assert Windows(text, chunkSize, chunkOverlap, second) == [w1];
    assert Windows(text, chunkSize, chunkOverlap, 0) == [w0, w1];
    assert [w0, w1][1..] == [w1];
    assert [w1][1..] == [];
    StripEmpty(text);
    StripEmpty(text[second..]);
    if Blank(text) {
      assert forall k | 0 <= k < |text[second..]| :: text[second..][k] == text[second + k];
    }
    var r := Chunks(text, metadata, chunkSize, chunkOverlap);
    var tailChunks := EmitChunks(metadata, [w1], if Blank(text) then 0 else 1);
    assert r == (if Blank(text) then [] else [ChunkOf(metadata, w0, 0)]) + tailChunks;
    assert EmitChunks(metadata, [], 0) == [] && EmitChunks(metadata, [], 1) == [] && EmitChunks(metadata, [], 2) == [];
    assert |tailChunks| == (if Blank(text[second..]) then 0 else 1);
  }

  /** The last window's end_char is not clamped: "abc" with the default sizes gives one chunk
      whose end_char is 1000. */
  lemma EndCharNotClamped()
    ensures var r := Chunks("abc", map[], Config.ChunkSize, Config.ChunkOverlap);
      |r| == 1 && r[0].content == "abc" && MetadataDict(r[0])["end_char"] == VInt(1000)
  {
    var text := "abc";
    assert !Blank(text) by { assert !IsSpace(text[0]); }
    ShortTextOneWindow(text, map[], 1000, 200);
    DictFacts(Chunks(text, map[], 1000, 200)[0]);
    assert Strip(text) == text by {
      assert TrimLeft(text) == text;
      assert TrimRight(text) == text;
    }
  }

  // ---------------------------------------------------------------------------
  // Document metadata

  /** The metadata process_document builds before chunking. */
  function BaseMetadata(path: string, processedAt: string): Metadata {
    map[
      "filename" := VStr(BaseName(path)),
      "file_path" := VStr(path),
      "file_type" := VStr(FileType(path)),
      "processed_at" := VStr(processedAt)]
  }

  /** The base metadata updated with the caller's additional metadata, which wins on every key. */
  function DocumentMetadata(path: string, processedAt: string, additional: Option<Metadata>): (m: Metadata)
    ensures additional.Some? ==> forall k | k in additional.value :: k in m && m[k] == additional.value[k]
    ensures forall k | k in BaseMetadata(path, processedAt) && (additional.None? || k !in additional.value) ::
      k in m && m[k] == BaseMetadata(path, processedAt)[k]
    ensures m.Keys == BaseMetadata(path, processedAt).Keys + (if additional.Some? then additional.value.Keys else {})
  {
    var base := BaseMetadata(path, processedAt);
    if additional.Some? && additional.value != map[] then base + additional.value else base
  }

  /** The default sizes satisfy the guard. */
  lemma DefaultsAdvance()
    ensures Advances(Config.ChunkSize, Config.ChunkOverlap)
  {
  }

  class Processor {
    const chunkSize: int
    const chunkOverlap: int

    /** Absent or zero sizes take the configured defaults: an overlap of 0 becomes 200. */
    constructor (chunkSize: Option<int>, chunkOverlap: Option<int>)
      ensures this.chunkSize == OrDefault(chunkSize, Config.ChunkSize)
      ensures this.chunkOverlap == OrDefault(chunkOverlap, Config.ChunkOverlap)
    {
      this.chunkSize := OrDefault(chunkSize, Config.ChunkSize);
      this.chunkOverlap := OrDefault(chunkOverlap, Config.ChunkOverlap);
    }

    /** The window at start: chunk_size characters, cut back after the last period or newline
        when the text goes on and that break lies beyond half the chunk size. */
    method CutWindow(text: string, start: nat) returns (end: int, chunkText: string)
      requires 0 < chunkSize && start < |text|
      ensures end == WindowEnd(text, chunkSize, start)
      ensures chunkText == text[start..Min(end, |text|)]
    {
      end := start + chunkSize;
      chunkText := text[start..Min(end, |text|)];
      if end < |text| {
        assert chunkText == text[start..start + chunkSize];
        var lastPeriod := RFind(chunkText, '.');
        var lastNewline := RFind(chunkText, '\n');
        var breakPoint := Max(lastPeriod, lastNewline);
        if 2 * breakPoint > chunkSize {
          chunkText := chunkText[..breakPoint + 1];
          end := start + breakPoint + 1;
          assert chunkText == text[start..end];
        }
      }
    }

    /** The chunking loop. */
    method ChunkText(text: string, metadata: Option<Metadata>) returns (chunks: seq<DocumentChunk>)
      requires Advances(chunkSize, chunkOverlap)
      ensures chunks == Chunks(text, if metadata.Some? then metadata.value else map[], chunkSize, chunkOverlap)
    {
      var meta: Metadata := if metadata.Some? then metadata.value else map[];
      chunks := [];
      var start: nat := 0;
      var chunkId: nat := 0;
      while start < |text|
        invariant chunks + EmitChunks(meta, Windows(text, chunkSize, chunkOverlap, start), chunkId)
                  == Chunks(text, meta, chunkSize, chunkOverlap)
        decreases |text| - start
      {
        var end, chunkText := CutWindow(text, start);
        var next := end - chunkOverlap;
        ChunkStep(text, meta, chunkSize, chunkOverlap, start, end, chunkText, chunks, chunkId, next);
        if Strip(chunkText) != "" {
          chunks := chunks + [DocumentChunk(Strip(chunkText), meta, chunkId, start, end)];
          chunkId := chunkId + 1;
        }
        start := next;
        if start >= |text| {
          break;
        }
      }
    }

    /** load_document, the document metadata, then chunk_text. */
    method ProcessDocument(path: string, file: FileContents, processedAt: string, additional: Option<Metadata>)
      returns (r: Result<seq<DocumentChunk>>)
      requires Advances(chunkSize, chunkOverlap)
      ensures r == match LoadDocument(path, file)
        case Failure(e) => Failure(e)
        case Success(content) => Success(Chunks(content, DocumentMetadata(path, processedAt, additional), chunkSize, chunkOverlap))
    {
      var content := LoadDocument(path, file);
      if content.Failure? {
        return Failure(content.error);
      }
      var metadata := DocumentMetadata(path, processedAt, additional);
      var chunks := ChunkText(content.value, Some(metadata));
      r := Success(chunks);
    }
  }
}
