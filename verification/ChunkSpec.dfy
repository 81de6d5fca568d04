/** What the chunks of a text are, whichever way they are produced. */
module ChunkSpec {
  import opened Wrappers
  import opened Utf8

  /** The source also gives every chunk the ID "chunk-" followed by its index. */
  datatype Chunk = Chunk(
    index: nat, relativePath: string,
    startLine: nat, endLine: nat,
    byteStart: nat, byteEnd: nat,
    text: seq<Byte>, contentSHA256: string)

  datatype Fault = MaxNotPositive | InvalidUtf8 | RuneTooWide(offset: nat)

  /** The first rune that is malformed, or too wide for a chunk. */
  function FirstFault(text: seq<Byte>, max: int, offset: nat): Option<Fault>
    decreases |text|
  {
    if text == [] then None
    else if RuneWidth(text) == 0 then Some(InvalidUtf8)
    else if RuneWidth(text) > max then Some(RuneTooWide(offset))
    else FirstFault(text[RuneWidth(text)..], max, offset + RuneWidth(text))
  }

  /** `c` is the `k`-th chunk: a slice of the text, with the lines of its first and last rune. */
  ghost predicate IsChunk(text: seq<Byte>, max: int, path: string, k: nat, c: Chunk) {
    && c.index == k && c.relativePath == path
    && c.byteStart < c.byteEnd <= |text| && c.byteEnd - c.byteStart <= max
    && c.text == text[c.byteStart..c.byteEnd]
    && c.startLine == 1 + Newlines(text[..c.byteStart])
    && c.endLine == 1 + Newlines(text[..c.byteEnd - 1])
  }

  /** The rune after `c` is a whole one, and would not have fitted. */
  ghost predicate Full(text: seq<Byte>, max: int, c: Chunk) {
    c.byteEnd < |text| ==> RuneWidth(text[c.byteEnd..]) > 0 && c.byteEnd - c.byteStart + RuneWidth(text[c.byteEnd..]) > max
  }

  /** The chunks follow one another from the start of the text to `end`, each as long as it can be. */
  ghost predicate Partition(text: seq<Byte>, max: int, path: string, chunks: seq<Chunk>, end: nat)
    decreases |chunks|
  {
    if chunks == [] then end == 0 else
    var k := |chunks| - 1;
    && IsChunk(text, max, path, k, chunks[k]) && Full(text, max, chunks[k])
    && chunks[k].byteEnd == end
    && Partition(text, max, path, chunks[..k], chunks[k].byteStart)
  }

  ghost predicate Stamped(chunks: seq<Chunk>, sha: string) {
    forall c :: c in chunks ==> c.contentSHA256 == sha
  }

  ghost predicate Chunking(text: seq<Byte>, max: int, path: string, sha: string, chunks: seq<Chunk>) {
    Partition(text, max, path, chunks, |text|) && Stamped(chunks, sha)
  }

  // ------------------------------------------------------------ what follows from it

  function Texts(chunks: seq<Chunk>): seq<Byte> {
    if chunks == [] then [] else Texts(chunks[..|chunks| - 1]) + chunks[|chunks| - 1].text
  }

  lemma PrefixPlusSlice(text: seq<Byte>, i: nat, j: nat)
    requires i <= j <= |text|
    ensures text[..i] + text[i..j] == text[..j]
  {
  }

  lemma {:induction false} TextsGiveTheText(text: seq<Byte>, max: int, path: string, chunks: seq<Chunk>, end: nat)
    requires Partition(text, max, path, chunks, end)
    ensures end <= |text| && Texts(chunks) == text[..end]
    decreases |chunks|
  {
    if chunks != [] {
      var rest, last := chunks[..|chunks| - 1], chunks[|chunks| - 1];
      TextsGiveTheText(text, max, path, rest, last.byteStart);
      PrefixPlusSlice(text, last.byteStart, end);
    }
  }

  /** Nothing is lost and nothing is repeated. */
  lemma Lossless(text: seq<Byte>, max: int, path: string, sha: string, chunks: seq<Chunk>)
    requires Chunking(text, max, path, sha, chunks)
    ensures Texts(chunks) == text
  {
    TextsGiveTheText(text, max, path, chunks, |text|);
    assert text[..|text|] == text;
  }

  lemma {:induction false} ChunkIs(text: seq<Byte>, max: int, path: string, chunks: seq<Chunk>, end: nat, k: nat)
    requires Partition(text, max, path, chunks, end) && k < |chunks|
    ensures IsChunk(text, max, path, k, chunks[k]) && Full(text, max, chunks[k])
    decreases |chunks|
  {
    var n := |chunks| - 1;
    if k < n { ChunkIs(text, max, path, chunks[..n], chunks[n].byteStart, k); }
  }

  lemma {:induction false} ChunkFollows(text: seq<Byte>, max: int, path: string, chunks: seq<Chunk>, end: nat, k: nat)
    requires Partition(text, max, path, chunks, end) && k < |chunks|
    ensures chunks[k].byteStart == if k == 0 then 0 else chunks[k - 1].byteEnd
    ensures chunks[k].byteEnd <= end && (chunks[k].byteEnd == end <==> k == |chunks| - 1)
    decreases |chunks|
  {
    var n := |chunks| - 1;
    if k < n {
      ChunkFollows(text, max, path, chunks[..n], chunks[n].byteStart, k);
    } else if n > 0 {
      assert chunks[..n][n - 1] == chunks[n - 1];
    }
  }

  /** The `k`-th chunk starts where its predecessor ends, or where the text does. */
  lemma ChunkAt(text: seq<Byte>, max: int, path: string, chunks: seq<Chunk>, end: nat, k: nat)
    requires Partition(text, max, path, chunks, end) && k < |chunks|
    ensures IsChunk(text, max, path, k, chunks[k]) && Full(text, max, chunks[k])
    ensures chunks[k].byteStart == if k == 0 then 0 else chunks[k - 1].byteEnd
    ensures chunks[k].byteEnd <= end && (chunks[k].byteEnd == end <==> k == |chunks| - 1)
  {
    ChunkIs(text, max, path, chunks, end, k);
    ChunkFollows(text, max, path, chunks, end, k);
  }

  lemma FullIsLong(text: seq<Byte>, max: int, c: Chunk)
    requires Full(text, max, c) && c.byteEnd < |text|
    ensures c.byteEnd >= c.byteStart + (max - 3)
  {
  }

  /** Every chunk but the last comes within three bytes of the limit. */
  lemma InnerChunksAreLong(text: seq<Byte>, max: int, path: string, sha: string, chunks: seq<Chunk>, k: nat)
    requires Chunking(text, max, path, sha, chunks) && k < |chunks| - 1
    ensures max - 3 <= |chunks[k].text| <= max
    ensures chunks[k + 1].byteStart >= chunks[k].byteStart + (max - 3)
  {
    ChunkIs(text, max, path, chunks, |text|, k);
    ChunkFollows(text, max, path, chunks, |text|, k);
    ChunkFollows(text, max, path, chunks, |text|, k + 1);
    FullIsLong(text, max, chunks[k]);
  }

  lemma {:induction false} StepsAddUp(starts: seq<nat>, step: nat, n: nat)
    requires n < |starts| && forall k :: 0 < k <= n ==> starts[k] >= starts[k - 1] + step
    ensures n * step <= starts[n]
    decreases n
  {
    if n > 0 {
      StepsAddUp(starts, step, n - 1);
      assert n * step == (n - 1) * step + step;
    }
  }

  /** Greedy chunks are few: `(n - 1) * (max - 3) < |text|` for `n` chunks. */
  lemma FewChunks(text: seq<Byte>, max: int, path: string, sha: string, chunks: seq<Chunk>)
    requires Chunking(text, max, path, sha, chunks) && 4 <= max
    ensures |chunks| <= |text| / (max - 3) + 1
  {
    if chunks != [] {
      var n := |chunks| - 1;
      var starts := seq(|chunks|, k requires 0 <= k < |chunks| => chunks[k].byteStart);
      forall k | 0 < k <= n ensures starts[k] >= starts[k - 1] + (max - 3) {
        InnerChunksAreLong(text, max, path, sha, chunks, k - 1);
      }
      StepsAddUp(starts, max - 3, n);
      ChunkAt(text, max, path, chunks, |text|, n);
      QuotientBound(n, max - 3, |text|);
    }
  }

  lemma QuotientBound(n: nat, d: int, total: nat)
    requires 0 < d && n * d <= total
    ensures n <= total / d
  {
    var q := total / d;
    assert total == d * q + total % d;
    assert n * d < (q + 1) * d by { assert (q + 1) * d == d * q + d; }
    SmallerFactor(n, q + 1, d);
  }

  lemma SmallerFactor(n: int, m: int, d: int)
    requires 0 < d && n * d < m * d
    ensures n < m
  {
    assert n * d - m * d == (n - m) * d;
    assert n >= m ==> (n - m) * d >= 0;
  }

  lemma EndIsBoundary(text: seq<Byte>, max: int, c: Chunk)
    requires Full(text, max, c) && c.byteEnd <= |text|
    ensures Boundary(text, c.byteEnd)
  {
    if c.byteEnd < |text| { assert text[c.byteEnd..][0] == text[c.byteEnd]; }
  }

  lemma ChunkBounds(text: seq<Byte>, max: int, path: string, chunks: seq<Chunk>, end: nat, k: nat)
    requires Partition(text, max, path, chunks, end) && k < |chunks|
    ensures chunks[k].byteStart < chunks[k].byteEnd <= |text| && Boundary(text, chunks[k].byteEnd)
  {
    ChunkIs(text, max, path, chunks, end, k);
    EndIsBoundary(text, max, chunks[k]);
  }

  lemma CutsAreBoundaries(text: seq<Byte>, max: int, path: string, chunks: seq<Chunk>, end: nat, k: nat)
    requires Partition(text, max, path, chunks, end) && WellFormed(text) && k < |chunks|
    ensures chunks[k].byteStart < chunks[k].byteEnd <= |text|
    ensures Boundary(text, chunks[k].byteStart) && Boundary(text, chunks[k].byteEnd)
  {
    ChunkBounds(text, max, path, chunks, end, k);
    ChunkFollows(text, max, path, chunks, end, k);
    if k > 0 { ChunkBounds(text, max, path, chunks, end, k - 1); }
  }

  /** In well-formed text every cut falls between two runes, and no chunk is empty. */
  lemma ChunksAreWellFormed(text: seq<Byte>, max: int, path: string, sha: string, chunks: seq<Chunk>, k: nat)
    requires Chunking(text, max, path, sha, chunks) && WellFormed(text) && k < |chunks|
    ensures chunks[k].text != [] && WellFormed(chunks[k].text)
  {
    CutsAreBoundaries(text, max, path, chunks, |text|, k);
    ChunkAt(text, max, path, chunks, |text|, k);
    SliceIsWellFormed(text, chunks[k].byteStart, chunks[k].byteEnd);
  }

  // ------------------------------------------------------------------- uniqueness

  /** Two chunks that start together end together. */
  lemma SameEnd(text: seq<Byte>, max: int, path: string, k: nat, c: Chunk, d: Chunk)
    requires IsChunk(text, max, path, k, c) && IsChunk(text, max, path, k, d)
    requires Full(text, max, c) && Full(text, max, d)
    requires c.byteStart == d.byteStart && c.contentSHA256 == d.contentSHA256
    ensures c == d
  {
    EndIsBoundary(text, max, c);
    EndIsBoundary(text, max, d);
    EndIsNoLater(text, max, c, d);
    EndIsNoLater(text, max, d, c);
  }

  lemma {:induction false} SameChunk(text: seq<Byte>, max: int, path: string, sha: string, a: seq<Chunk>, b: seq<Chunk>, k: nat)
    requires Chunking(text, max, path, sha, a) && Chunking(text, max, path, sha, b)
    requires k < |a| && k < |b|
    ensures a[k] == b[k]
    decreases k
  {
    if k > 0 { SameChunk(text, max, path, sha, a, b, k - 1); }
    ChunkAt(text, max, path, a, |text|, k);
    ChunkAt(text, max, path, b, |text|, k);
    assert a[k] in a && b[k] in b;
    SameEnd(text, max, path, k, a[k], b[k]);
  }

  /** Nothing that fits goes past the end of a full chunk. */
  lemma EndIsNoLater(text: seq<Byte>, max: int, c: Chunk, d: Chunk)
    requires Full(text, max, c) && c.byteStart == d.byteStart && c.byteEnd <= |text| && d.byteEnd <= |text|
    requires d.byteEnd - d.byteStart <= max && Boundary(text, d.byteEnd)
    ensures d.byteEnd <= c.byteEnd
  {
    if c.byteEnd < |text| {
      var rest, w := text[c.byteEnd..], RuneWidth(text[c.byteEnd..]);
      forall x | c.byteEnd < x < c.byteEnd + w ensures !Boundary(text, x) { assert rest[x - c.byteEnd] == text[x]; }
    }
  }

  lemma NoLonger(text: seq<Byte>, max: int, path: string, sha: string, a: seq<Chunk>, b: seq<Chunk>)
    requires Chunking(text, max, path, sha, a) && Chunking(text, max, path, sha, b)
    ensures |b| <= |a|
  {
    if |a| < |b| {
      ChunkBounds(text, max, path, b, |text|, |a|);
      if a != [] {
        SameChunk(text, max, path, sha, a, b, |a| - 1);
        ChunkFollows(text, max, path, a, |text|, |a| - 1);
        ChunkFollows(text, max, path, b, |text|, |a| - 1);
      }
    }
  }

  /** A text has only one chunking: `Chunking` says all there is to say. */
  lemma ChunkingIsUnique(text: seq<Byte>, max: int, path: string, sha: string, a: seq<Chunk>, b: seq<Chunk>)
    requires Chunking(text, max, path, sha, a) && Chunking(text, max, path, sha, b)
    ensures a == b
  {
    NoLonger(text, max, path, sha, a, b);
    NoLonger(text, max, path, sha, b, a);
    forall k | 0 <= k < |a| ensures a[k] == b[k] {
      SameChunk(text, max, path, sha, a, b, k);
    }
  }

  lemma {:induction false} FaultlessIsWellFormed(text: seq<Byte>, max: int, offset: nat)
    requires FirstFault(text, max, offset).None?
    ensures WellFormed(text)
    decreases |text|
  {
    if text != [] { FaultlessIsWellFormed(text[RuneWidth(text)..], max, offset + RuneWidth(text)); }
  }

  /** With room for any rune, only malformed text is refused. */
  lemma {:induction false} OnlyMalformedTextFails(text: seq<Byte>, max: int, offset: nat)
    requires 4 <= max
    ensures FirstFault(text, max, offset) == if WellFormed(text) then None else Some(InvalidUtf8)
    decreases |text|
  {
    if text != [] && RuneWidth(text) > 0 {
      OnlyMalformedTextFails(text[RuneWidth(text)..], max, offset + RuneWidth(text));
    }
  }
}
