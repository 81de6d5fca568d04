/** The two chunkers: one over a whole text, one fed rune by rune. */
module Chunker {
  import opened Wrappers
  import opened Utf8
  import opened ChunkSpec

  /** The variables both chunkers keep. */
  datatype Progress = Progress(
    chunks: seq<Chunk>,
    current: seq<Byte>,
    startLine: nat, endLine: nat,
    byteStart: nat, byteOffset: nat,
    line: nat)

  const START := Progress([], [], 1, 1, 0, 0, 1)

  /** What has been produced after reading exactly `fed`. */
  ghost predicate Underway(fed: seq<Byte>, max: int, path: string, p: Progress) {
    && p.byteOffset == |fed| && p.line == 1 + Newlines(fed)
    && p.byteStart <= |fed| && p.current == fed[p.byteStart..] && |p.current| <= (if max < 0 then 0 else max)
    && (fed != [] ==> p.current != [])
    && (p.current != [] ==>
          p.startLine == 1 + Newlines(fed[..p.byteStart]) && p.endLine == 1 + Newlines(fed[..|fed| - 1]))
    && Partition(fed, max, path, p.chunks, p.byteStart)
  }

  /** The chunk that a flush would cut off. */
  function NextChunk(p: Progress, path: string, sha: string): Chunk {
    Chunk(|p.chunks|, path, p.startLine, p.endLine, p.byteStart, p.byteOffset, p.current, sha)
  }

  function Flushed(p: Progress, path: string, sha: string): Progress {
    if p.current == [] then p else
    p.(chunks := p.chunks + [NextChunk(p, path, sha)], current := [], startLine := p.line, endLine := p.line, byteStart := p.byteOffset)
  }

  /** Room for a rune of `width` bytes: the current chunk if it fits, a new one if not. */
  function Ready(p: Progress, width: nat, max: int, path: string, sha: string): Progress {
    var p := if |p.current| + width > max then Flushed(p, path, sha) else p;
    if p.current == [] then p.(startLine := p.line, byteStart := p.byteOffset) else p
  }

  function Taken(p: Progress, piece: seq<Byte>): Progress {
    p.(current := p.current + piece, endLine := p.line, byteOffset := p.byteOffset + |piece|,
       line := if piece == [NEWLINE] then p.line + 1 else p.line)
  }

  /** One more rune, which is known to fit a chunk of its own. */
  function Appended(p: Progress, piece: seq<Byte>, max: int, path: string, sha: string): Progress {
    Taken(Ready(p, |piece|, max, path, sha), piece)
  }

  lemma GrownChunk(fed: seq<Byte>, piece: seq<Byte>, max: int, path: string, k: nat, c: Chunk)
    requires IsChunk(fed, max, path, k, c) && Full(fed, max, c)
    requires RuneWidth(piece) > 0 && (c.byteEnd == |fed| ==> |fed| - c.byteStart + RuneWidth(piece) > max)
    ensures IsChunk(fed + piece, max, path, k, c) && Full(fed + piece, max, c)
  {
    var text := fed + piece;
    assert text[..c.byteStart] == fed[..c.byteStart] && text[..c.byteEnd - 1] == fed[..c.byteEnd - 1];
    assert text[c.byteStart..c.byteEnd] == fed[c.byteStart..c.byteEnd];
    assert text[c.byteEnd..] == fed[c.byteEnd..] + piece;
    if c.byteEnd == |fed| {
      assert text[c.byteEnd..] == piece;
    } else {
      RuneWidthOfPrefix(fed[c.byteEnd..], piece);
    }
  }

  lemma {:induction false} GrownPartition(fed: seq<Byte>, piece: seq<Byte>, max: int, path: string, chunks: seq<Chunk>, end: nat)
    requires Partition(fed, max, path, chunks, end) && RuneWidth(piece) > 0
    requires end == |fed| && chunks != [] ==> |fed| - chunks[|chunks| - 1].byteStart + RuneWidth(piece) > max
    ensures Partition(fed + piece, max, path, chunks, end)
    decreases |chunks|
  {
    if chunks != [] {
      var k := |chunks| - 1;
      GrownChunk(fed, piece, max, path, k, chunks[k]);
      GrownPartition(fed, piece, max, path, chunks[..k], chunks[k].byteStart);
    }
  }

  lemma NextIsChunk(fed: seq<Byte>, max: int, path: string, sha: string, p: Progress)
    requires Underway(fed, max, path, p) && p.current != []
    ensures IsChunk(fed, max, path, |p.chunks|, NextChunk(p, path, sha))
  {
    assert fed[p.byteStart..|fed|] == fed[p.byteStart..];
  }

  lemma OneMoreChunk(fed: seq<Byte>, max: int, path: string, chunks: seq<Chunk>, c: Chunk)
    requires Partition(fed, max, path, chunks, c.byteStart)
    requires IsChunk(fed, max, path, |chunks|, c) && c.byteEnd == |fed|
    requires Full(fed, max, c)
    ensures Partition(fed, max, path, chunks + [c], |fed|)
  {
    assert (chunks + [c])[..|chunks|] == chunks;
  }

  lemma FlushKeeps(fed: seq<Byte>, max: int, path: string, sha: string, p: Progress)
    requires Underway(fed, max, path, p)
    ensures Partition(fed, max, path, Flushed(p, path, sha).chunks, |fed|)
  {
    if p.current != [] {
      NextIsChunk(fed, max, path, sha, p);
      OneMoreChunk(fed, max, path, p.chunks, NextChunk(p, path, sha));
    }
  }

  lemma LinesAfter(fed: seq<Byte>, piece: seq<Byte>)
    requires piece != [] && RuneWidth(piece) == |piece|
    ensures Newlines(fed + piece) == Newlines(fed) + (if piece == [NEWLINE] then 1 else 0)
    ensures Newlines((fed + piece)[..|fed + piece| - 1]) == Newlines(fed)
  {
    NewlinesOfRune(piece);
    NewlinesConcat(fed, piece);
    NewlinesConcat(fed, piece[..|piece| - 1]);
    assert (fed + piece)[..|fed + piece| - 1] == fed + piece[..|piece| - 1];
  }

  /** The rune starts a chunk of its own: at the very beginning, or because the last chunk is full. */
  lemma AppendStartsChunk(fed: seq<Byte>, piece: seq<Byte>, max: int, path: string, sha: string, p: Progress)
    requires Underway(fed, max, path, p) && 0 < RuneWidth(piece) == |piece| <= max
    requires |p.current| + |piece| > max || fed == []
    ensures Underway(fed + piece, max, path, Appended(p, piece, max, path, sha))
  {
    var q := Appended(p, piece, max, path, sha);
    LinesAfter(fed, piece);
    assert (fed + piece)[|fed|..] == piece && (fed + piece)[..|fed|] == fed;
    FlushKeeps(fed, max, path, sha, p);
    GrownPartition(fed, piece, max, path, Flushed(p, path, sha).chunks, |fed|);
    assert q.byteStart == |fed| && q.current == piece && q.chunks == Flushed(p, path, sha).chunks;
  }

  lemma SlicesOfConcat<T>(a: seq<T>, b: seq<T>, i: nat)
    requires i <= |a|
    ensures (a + b)[i..] == a[i..] + b && (a + b)[..i] == a[..i]
  {
  }

  lemma AppendGrowsChunk(fed: seq<Byte>, piece: seq<Byte>, max: int, path: string, sha: string, p: Progress)
    requires Underway(fed, max, path, p) && 0 < RuneWidth(piece) == |piece| <= max
    requires |p.current| + |piece| <= max && fed != []
    ensures Underway(fed + piece, max, path, Appended(p, piece, max, path, sha))
  {
    var q := Taken(p, piece);
    assert Ready(p, |piece|, max, path, sha) == p;
    LinesAfter(fed, piece);
    SlicesOfConcat(fed, piece, p.byteStart);
    GrownPartition(fed, piece, max, path, p.chunks, p.byteStart);
    assert Underway(fed + piece, max, path, q);
  }

  /** Reading one more rune keeps everything the chunks promise. */
  lemma AppendKeeps(fed: seq<Byte>, piece: seq<Byte>, max: int, path: string, sha: string, p: Progress)
    requires Underway(fed, max, path, p)
    requires 0 < RuneWidth(piece) == |piece| <= max
    ensures Underway(fed + piece, max, path, Appended(p, piece, max, path, sha))
  {
    if |p.current| + |piece| > max || fed == [] {
      AppendStartsChunk(fed, piece, max, path, sha, p);
    } else {
      AppendGrowsChunk(fed, piece, max, path, sha, p);
    }
  }

  /** `fed` has been read from the front of `content` without a fault, `text` is still to come. */
  ghost predicate Reading(content: seq<Byte>, fed: seq<Byte>, text: seq<Byte>, max: int, path: string, p: Progress) {
    && fed + text == content
    && FirstFault(content, max, 0) == FirstFault(text, max, p.byteOffset)
    && Underway(fed, max, path, p)
  }

  lemma ReadingStarts(content: seq<Byte>, max: int, path: string)
    ensures Reading(content, [], content, max, path, START)
  {
  }

  /** A rune read, and written out again, is the same bytes. */
  lemma Reread(text: seq<Byte>)
    requires RuneWidth(text) > 0
    ensures var piece := text[..RuneWidth(text)];
            && RuneWidth(piece) == |piece| && Encode(Decode(text)) == piece
            && (Decode(text) == NEWLINE <==> piece == [NEWLINE])
  {
    DecodeThenEncode(text);
    NewlineIsOneByte(text);
    RuneWidthOfPrefix(text, []);
  }

  lemma FaultStep(text: seq<Byte>, max: int, offset: nat)
    requires 0 < RuneWidth(text) <= max
    ensures FirstFault(text, max, offset) == FirstFault(text[RuneWidth(text)..], max, offset + RuneWidth(text))
  {
  }

  lemma Shifted(fed: seq<Byte>, text: seq<Byte>, w: nat)
    requires w <= |text|
    ensures fed + text[..w] + text[w..] == fed + text
  {
  }

  lemma TurnFeeds(fed: seq<Byte>, text: seq<Byte>, max: int, path: string, sha: string, p: Progress)
    requires Underway(fed, max, path, p) && 0 < RuneWidth(text) <= max
    ensures Underway(fed + text[..RuneWidth(text)], max, path, Appended(p, text[..RuneWidth(text)], max, path, sha))
  {
    RuneWidthOfPrefix(text, []);
    AppendKeeps(fed, text[..RuneWidth(text)], max, path, sha, p);
  }

  /** One turn of either loop. */
  lemma TurnKeeps(content: seq<Byte>, fed: seq<Byte>, text: seq<Byte>, max: int, path: string, sha: string, p: Progress)
    requires Reading(content, fed, text, max, path, p) && 0 < RuneWidth(text) <= max
    ensures var w := RuneWidth(text);
            Reading(content, fed + text[..w], text[w..], max, path, Appended(p, text[..w], max, path, sha))
  {
    var w := RuneWidth(text);
    var q := Appended(p, text[..w], max, path, sha);
    assert fed + text[..w] + text[w..] == content by { Shifted(fed, text, w); }
    assert q.byteOffset == p.byteOffset + w;
    assert FirstFault(content, max, 0) == FirstFault(text[w..], max, q.byteOffset) by { FaultStep(text, max, p.byteOffset); }
    TurnFeeds(fed, text, max, path, sha, p);
  }

  /** What each way of chunking answers. */
  ghost predicate Answer(text: seq<Byte>, max: int, path: string, sha: string, r: Result<seq<Chunk>, Fault>) {
    match FirstFault(text, max, 0)
    case Some(fault) => r == Err(fault)
    case None => r.Ok? && Chunking(text, max, path, sha, r.value)
  }

  ghost predicate BatchAnswer(text: seq<Byte>, max: int, path: string, sha: string, r: Result<seq<Chunk>, Fault>) {
    if max <= 0 then r == Err(MaxNotPositive) else Answer(text, max, path, sha, r)
  }

  lemma ReadingFails(content: seq<Byte>, fed: seq<Byte>, text: seq<Byte>, max: int, path: string, sha: string, p: Progress)
    requires Reading(content, fed, text, max, path, p)
    ensures text != [] && RuneWidth(text) == 0 ==> Answer(content, max, path, sha, Err(InvalidUtf8))
    ensures RuneWidth(text) > 0 && RuneWidth(text) > max ==> Answer(content, max, path, sha, Err(RuneTooWide(p.byteOffset)))
  {
  }

  lemma NothingLeft(content: seq<Byte>, fed: seq<Byte>, max: int, path: string, p: Progress)
    requires Reading(content, fed, [], max, path, p)
    ensures fed == content && FirstFault(content, max, 0) == None
  {
    assert fed + [] == fed;
  }

  lemma ReadingEnds(content: seq<Byte>, fed: seq<Byte>, max: int, path: string, sha: string, p: Progress)
    requires Reading(content, fed, [], max, path, p) && Stamped(p.chunks, sha)
    ensures Answer(content, max, path, sha, Ok(Flushed(p, path, sha).chunks))
  {
    NothingLeft(content, fed, max, path, p);
    FlushKeeps(fed, max, path, sha, p);
    assert Stamped(Flushed(p, path, sha).chunks, sha);
  }

  /** The streaming chunker refines the batch one, wherever a chunk may hold anything at all. */
  lemma StreamingRefinesBatch(text: seq<Byte>, max: int, path: string, sha: string,
                              batch: Result<seq<Chunk>, Fault>, streamed: Result<seq<Chunk>, Fault>)
    requires BatchAnswer(text, max, path, sha, batch) && Answer(text, max, path, sha, streamed)
    ensures batch == streamed <==> 0 < max
    ensures batch.Ok? == streamed.Ok? <==> 0 < max || text != []
    ensures max <= 0 && text == [] ==> streamed == Ok([])
  {
    if FirstFault(text, max, 0).None? {
      if 0 < max { ChunkingIsUnique(text, max, path, sha, batch.value, streamed.value); }
      if text == [] && streamed.value != [] { ChunkAt(text, max, path, streamed.value, |text|, 0); }
    }
  }

  // ------------------------------------------------------------------ whole texts

  /** The closure `flush`; the record holds the local variables it shares with `ChunkEligibleText`. */
  method Flush(p: Progress, relativePath: string, contentSHA256: string) returns (v: Progress)
    ensures v == Flushed(p, relativePath, contentSHA256)
  {
    v := p;
    if |v.current| == 0 {
      return;
    }
    var chunk := Chunk(|v.chunks|, relativePath, v.startLine, v.endLine, v.byteStart, v.byteOffset, v.current, contentSHA256);
    v := v.(chunks := v.chunks + [chunk]);
    v := v.(current := [], startLine := v.line, endLine := v.line, byteStart := v.byteOffset);
  }

  /** The end of the loop's body, once the rune is known to be whole and to fit. */
  method Take(p: Progress, r: Rune, piece: seq<Byte>, maxChunkBytes: int, relativePath: string, contentSHA256: string)
    returns (v: Progress)
    requires r == NEWLINE <==> piece == [NEWLINE]
    ensures v == Appended(p, piece, maxChunkBytes, relativePath, contentSHA256)
  {
    v := p;
    if |v.current| + |piece| > maxChunkBytes {
      v := Flush(v, relativePath, contentSHA256);
    }
    if |v.current| == 0 {
      v := v.(startLine := v.line, byteStart := v.byteOffset);
    }
    v := v.(current := v.current + piece, endLine := v.line, byteOffset := v.byteOffset + |piece|);
    if r == NEWLINE {
      v := v.(line := v.line + 1);
    }
  }

  method ChunkEligibleText(relativePath: string, content: seq<Byte>, contentSHA256: string, maxChunkBytes: int)
    returns (r: Result<seq<Chunk>, Fault>)
    ensures BatchAnswer(content, maxChunkBytes, relativePath, contentSHA256, r)
  {
    if maxChunkBytes <= 0 {
      return Err(MaxNotPositive);
    }
    if content == [] {
      return Ok([]);
    }
    var text, v := content, START;
    ghost var fed: seq<Byte> := [];
    ReadingStarts(content, maxChunkBytes, relativePath);
    while text != []
      invariant Reading(content, fed, text, maxChunkBytes, relativePath, v)
      invariant Stamped(v.chunks, contentSHA256)
      decreases |text|
    {
      ReadingFails(content, fed, text, maxChunkBytes, relativePath, contentSHA256, v);
      var width := RuneWidth(text);
      if width == 0 {
        return Err(InvalidUtf8);
      }
      if width > maxChunkBytes {
        return Err(RuneTooWide(v.byteOffset));
      }
      Reread(text);
      TurnKeeps(content, fed, text, maxChunkBytes, relativePath, contentSHA256, v);
      v := Take(v, Decode(text), text[..width], maxChunkBytes, relativePath, contentSHA256);
      fed, text := fed + text[..width], text[width..];
    }
    ReadingEnds(content, fed, maxChunkBytes, relativePath, contentSHA256, v);
    v := Flush(v, relativePath, contentSHA256);
    return Ok(v.chunks);
  }

  // ---------------------------------------------------------------- rune by rune

  class StreamingChunkBuilder {
    const relativePath: string
    const maxChunkBytes: int
    var contentSHA256: string
    var chunks: seq<Chunk>
    var current: seq<Byte>
    var currentStartLine: nat
    var currentEndLine: nat
    var currentByteStart: nat
    var byteOffset: nat
    var lineNumber: nat

    function View(): Progress
      reads this
    {
      Progress(chunks, current, currentStartLine, currentEndLine, currentByteStart, byteOffset, lineNumber)
    }

    constructor (relativePath: string, maxChunkBytes: int)
      ensures this.relativePath == relativePath && this.maxChunkBytes == maxChunkBytes
      ensures View() == START
    {
      this.relativePath, this.maxChunkBytes, contentSHA256 := relativePath, maxChunkBytes, "";
      chunks, current := [], [];
      currentStartLine, currentEndLine, currentByteStart := 1, 1, 0;
      byteOffset, lineNumber := 0, 1;
    }

    method Flush(byteEnd: nat)
      requires byteEnd == byteOffset
      modifies this
      ensures View() == Flushed(old(View()), relativePath, contentSHA256) && contentSHA256 == old(contentSHA256)
    {
      if |current| == 0 {
        return;
      }
      var index := |chunks|;
      chunks := chunks + [Chunk(index, relativePath, currentStartLine, currentEndLine, currentByteStart, byteEnd, current, contentSHA256)];
      current := [];
      currentStartLine := lineNumber;
      currentEndLine := lineNumber;
      currentByteStart := byteEnd;
    }

    /** On failure nothing changes; on success the builder has read one more rune. */
    method AppendRune(r: Rune, piece: seq<Byte>) returns (fault: Option<Fault>)
      requires r == NEWLINE <==> piece == [NEWLINE]
      modifies this
      ensures contentSHA256 == old(contentSHA256)
      ensures |piece| > maxChunkBytes ==> fault == Some(RuneTooWide(old(byteOffset))) && View() == old(View())
      ensures |piece| <= maxChunkBytes ==>
                fault == None && View() == Appended(old(View()), piece, maxChunkBytes, relativePath, contentSHA256)
    {
      if |piece| > maxChunkBytes {
        return Some(RuneTooWide(byteOffset));
      }
      if |current| + |piece| > maxChunkBytes {
        Flush(byteOffset);
      }
      if |current| == 0 {
        currentStartLine := lineNumber;
        currentByteStart := byteOffset;
      }
      current := current + piece;
      currentEndLine := lineNumber;
      byteOffset := byteOffset + |piece|;
      if r == NEWLINE {
        lineNumber := lineNumber + 1;
      }
      return None;
    }

    method Finish(ghost fed: seq<Byte>) returns (result: seq<Chunk>)
      requires Underway(fed, maxChunkBytes, relativePath, View())
      modifies this
      ensures Chunking(fed, maxChunkBytes, relativePath, old(contentSHA256), result)
    {
      FlushKeeps(fed, maxChunkBytes, relativePath, contentSHA256, View());
      Flush(byteOffset);
      ghost var unstamped := chunks;
      chunks := Stamp(chunks, contentSHA256);
      StampKeeps(fed, maxChunkBytes, relativePath, unstamped, chunks, |fed|);
      return chunks;
    }
  }

  /** Gives every chunk the hash of the whole text, which is known only now. */
  method Stamp(chunks: seq<Chunk>, contentSHA256: string) returns (stamped: seq<Chunk>)
    ensures |stamped| == |chunks|
    ensures forall k :: 0 <= k < |chunks| ==> stamped[k] == chunks[k].(contentSHA256 := contentSHA256)
  {
    stamped := chunks;
    for i := 0 to |stamped|
      invariant |stamped| == |chunks|
      invariant forall k :: 0 <= k < i ==> stamped[k] == chunks[k].(contentSHA256 := contentSHA256)
      invariant forall k :: i <= k < |chunks| ==> stamped[k] == chunks[k]
    {
      stamped := stamped[i := stamped[i].(contentSHA256 := contentSHA256)];
    }
  }

  lemma StampChunk(text: seq<Byte>, max: int, path: string, k: nat, c: Chunk, sha: string)
    requires IsChunk(text, max, path, k, c) && Full(text, max, c)
    ensures IsChunk(text, max, path, k, c.(contentSHA256 := sha)) && Full(text, max, c.(contentSHA256 := sha))
  {
  }

  lemma {:induction false} StampKeeps(text: seq<Byte>, max: int, path: string, a: seq<Chunk>, b: seq<Chunk>, end: nat)
    requires Partition(text, max, path, a, end) && |a| == |b|
    requires forall k :: 0 <= k < |a| ==> b[k] == a[k].(contentSHA256 := b[k].contentSHA256)
    ensures Partition(text, max, path, b, end)
    decreases |a|
  {
    if a != [] {
      var k := |a| - 1;
      StampChunk(text, max, path, k, a[k], b[k].contentSHA256);
      StampKeeps(text, max, path, a[..k], b[..k], a[k].byteStart);
    }
  }

  /** Reads the next rune and encodes it again. */
  method ReadRune(text: seq<Byte>) returns (rune: Rune, piece: seq<Byte>)
    requires RuneWidth(text) > 0
    ensures piece == text[..RuneWidth(text)] && RuneWidth(piece) == |piece|
    ensures rune == NEWLINE <==> piece == [NEWLINE]
  {
    Reread(text);
    rune := Decode(text);
    piece := Encode(rune);
  }

  /** What the builder has read after one more rune. */
  lemma BuilderTurn(content: seq<Byte>, fed: seq<Byte>, text: seq<Byte>, max: int, path: string, sha: string, v: Progress)
    requires text != [] && Reading(content, fed, text, max, path, v) && 0 < RuneWidth(text) <= max
    ensures var rest := text[RuneWidth(text)..];
            && |rest| < |text|
            && Reading(content, fed + text[..|text| - |rest|], rest, max, path, Appended(v, text[..RuneWidth(text)], max, path, sha))
  {
    TurnKeeps(content, fed, text, max, path, sha, v);
    assert |text| - |text[RuneWidth(text)..]| == RuneWidth(text);
  }

  /** Hands the next rune to the builder; on success `rest` is what comes after it. */
  method FeedRune(builder: StreamingChunkBuilder, ghost content: seq<Byte>, ghost fed: seq<Byte>, text: seq<Byte>)
    returns (fault: Option<Fault>, rest: seq<Byte>)
    requires text != [] && Reading(content, fed, text, builder.maxChunkBytes, builder.relativePath, builder.View())
    modifies builder
    ensures fault.Some? ==> FirstFault(content, builder.maxChunkBytes, 0) == fault
    ensures fault.None? ==> |rest| < |text| && Reading(content, fed + text[..|text| - |rest|], rest, builder.maxChunkBytes, builder.relativePath, builder.View())
  {
    rest := text;
    ReadingFails(content, fed, text, builder.maxChunkBytes, builder.relativePath, "", builder.View());
    var width := RuneWidth(text);
    if width == 0 {
      return Some(InvalidUtf8), rest;
    }
    var rune, piece := ReadRune(text);
    if width <= builder.maxChunkBytes {
      BuilderTurn(content, fed, text, builder.maxChunkBytes, builder.relativePath, builder.contentSHA256, builder.View());
    }
    fault := builder.AppendRune(rune, piece);
    if fault.None? {
      rest := text[width..];
    }
  }

  /** Reads the runes of `content`, encodes each again, and hands it to a builder; the hash is known only at the end. */
  method BuildChunksFromReader(relativePath: string, content: seq<Byte>, contentSHA256: string, maxChunkBytes: int)
    returns (r: Result<seq<Chunk>, Fault>)
    ensures Answer(content, maxChunkBytes, relativePath, contentSHA256, r)
  {
    var builder := new StreamingChunkBuilder(relativePath, maxChunkBytes);
    var text := content;
    ghost var fed: seq<Byte> := [];
    ReadingStarts(content, maxChunkBytes, relativePath);
    while text != []
      invariant builder.relativePath == relativePath && builder.maxChunkBytes == maxChunkBytes
      invariant Reading(content, fed, text, maxChunkBytes, relativePath, builder.View())
      decreases |text|
    {
      ghost var before := text;
      var fault;
      fault, text := FeedRune(builder, content, fed, text);
      if fault.Some? {
        return Err(fault.value);
      }
      fed := fed + before[..|before| - |text|];
    }
    NothingLeft(content, fed, maxChunkBytes, relativePath, builder.View());
    builder.contentSHA256 := contentSHA256;
    var chunks := builder.Finish(content);
    return Ok(chunks);
  }
}
