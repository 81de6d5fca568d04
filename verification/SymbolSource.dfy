/** A symbol's source, rebuilt from the chunks of its file. */
module SymbolSource {
  import opened Utf8
  import opened ChunkSpec

  function Min(a: int, b: int): int { if a < b then a else b }

  function Max(a: int, b: int): int { if a > b then a else b }

  /** Where a clip begins and where it ends. */
  function From(start: int, limit: nat): nat {
    Min(Max(start, 0), limit)
  }

  function To(start: int, end: int, limit: nat): nat {
    Max(From(start, limit), Min(end, limit))
  }

  /** The bytes of the file from `start` to `end`, as far as they lie before `limit`. */
  function Clip(file: seq<Byte>, start: int, end: int, limit: nat): seq<Byte>
    requires limit <= |file|
  {
    file[From(start, limit)..To(start, end, limit)]
  }

  /** The longest prefix of `s` that ends on a rune boundary and takes at most `max` bytes. */
  ghost predicate LongestThatFits(s: seq<Byte>, max: nat, t: seq<Byte>) {
    && t <= s && |t| <= max && (t == [] || Boundary(s, |t|))
    && forall m :: |t| < m <= max && m <= |s| ==> !Boundary(s, m)
  }

  lemma NoLongerPrefix(s: seq<Byte>, max: nat, t: seq<Byte>, m: nat)
    requires LongestThatFits(s, max, t) && m <= max && m <= |s| && (m == 0 || Boundary(s, m))
    ensures m <= |t|
  {
  }

  lemma LongestIsUnique(s: seq<Byte>, max: nat, t: seq<Byte>, u: seq<Byte>)
    requires LongestThatFits(s, max, t) && LongestThatFits(s, max, u)
    ensures t == u
  {
    NoLongerPrefix(s, max, t, |u|);
    NoLongerPrefix(s, max, u, |t|);
  }

  /** What fits is everything exactly when there is room for everything. */
  lemma AllFits(s: seq<Byte>, max: nat, t: seq<Byte>)
    requires LongestThatFits(s, max, t)
    ensures t == s <==> |s| <= max
  {
    if |s| <= max { NoLongerPrefix(s, max, t, |s|); }
  }

  /** At most three bytes of room are wasted on a rune that does not fit. */
  lemma LittleIsLost(s: seq<Byte>, max: nat, t: seq<Byte>)
    requires WellFormed(s) && LongestThatFits(s, max, t)
    ensures |t| >= Min(|s|, max - 3)
    ensures WellFormed(t)
  {
    BoundaryIsBetweenRunes(s, |t|);
    assert t == s[..|t|];
    if |t| < |s| {
      var w := RuneWidth(s[|t|..]);
      assert Boundary(s, |t|) by { if t == [] { assert s[0..] == s; } }
      BoundaryIsBetweenRunes(s[|t|..], w);
      RuneEndsOnBoundary(s[|t|..]);
      assert Boundary(s, |t| + w);
    }
  }

  lemma RuneEndsOnBoundary(text: seq<Byte>)
    requires WellFormed(text) && text != []
    ensures Boundary(text, RuneWidth(text))
  {
    var w := RuneWidth(text);
    if w < |text| { assert text[w..][0] == text[w]; }
  }

  /** What TruncateUTF8Bytes answers. */
  ghost predicate IsTruncation(value: seq<Byte>, max: int, text: seq<Byte>, truncated: bool) {
    truncated == (0 < max < |value|) && if truncated then LongestThatFits(value, max, text) else text == value
  }

  method TruncateUTF8Bytes(value: seq<Byte>, maxBytes: int) returns (r: seq<Byte>, truncated: bool)
    ensures IsTruncation(value, maxBytes, r, truncated)
  {
    if maxBytes <= 0 || |value| <= maxBytes {
      return value, false;
    }
    var cut := maxBytes;
    while cut > 0 && Continuation(value[cut])
      invariant 0 <= cut <= maxBytes
      invariant forall m :: cut < m <= maxBytes ==> !Boundary(value, m)
    {
      cut := cut - 1;
    }
    if cut <= 0 {
      return [], true;
    }
    return value[..cut], true;
  }

  /** The part of chunk `c` that belongs to the symbol. */
  function Piece(c: Chunk, start: int, end: int): seq<Byte>
    requires c.byteStart <= c.byteEnd && |c.text| == c.byteEnd - c.byteStart
  {
    if c.byteEnd <= start || c.byteStart >= end || end <= start then []
    else c.text[Max(start, c.byteStart) - c.byteStart..Min(end, c.byteEnd) - c.byteStart]
  }

  lemma SliceOfSlice(file: seq<Byte>, i: nat, j: nat, from: nat, to: nat)
    requires i <= from <= to <= j <= |file|
    ensures file[i..j][from - i..to - i] == file[from..to]
  {
    var slice := file[i..j];
    forall k | 0 <= k < to - from ensures slice[from - i..to - i][k] == file[from..to][k] {
      assert slice[from - i + k] == file[from + k];
    }
  }

  lemma BoundsGrow(start: int, end: int, i: nat, j: nat)
    requires i < j
    ensures if j <= start || i >= end || end <= start then
              To(start, end, j) - From(start, j) == To(start, end, i) - From(start, i) && (To(start, end, i) > From(start, i) ==> From(start, j) == From(start, i))
            else if start <= i then
              From(start, i) == From(start, j) == Max(start, 0) && To(start, end, i) == i && To(start, end, j) == Min(end, j)
            else
              From(start, i) == To(start, end, i) && From(start, j) == start && To(start, end, j) == Min(end, j)
  {
  }

  lemma ClipGrows(file: seq<Byte>, max: int, path: string, k: nat, c: Chunk, start: int, end: int)
    requires IsChunk(file, max, path, k, c)
    ensures Clip(file, start, end, c.byteEnd) == Clip(file, start, end, c.byteStart) + Piece(c, start, end)
  {
    BoundsGrow(start, end, c.byteStart, c.byteEnd);
    PieceIsSlice(file, c, start, end);
  }

  lemma PieceIsSlice(file: seq<Byte>, c: Chunk, start: int, end: int)
    requires c.byteStart < c.byteEnd <= |file| && c.text == file[c.byteStart..c.byteEnd]
    ensures Piece(c, start, end) == if c.byteEnd <= start || c.byteStart >= end || end <= start then []
                                    else file[Max(start, c.byteStart)..Min(end, c.byteEnd)]
  {
    if !(c.byteEnd <= start || c.byteStart >= end || end <= start) {
      SliceOfSlice(file, c.byteStart, c.byteEnd, Max(start, c.byteStart), Min(end, c.byteEnd));
    }
  }

  /** A shorter clip is a prefix of a longer one, and they part only where a chunk ends. */
  lemma ClipIsPrefix(file: seq<Byte>, start: int, end: int, limit: nat)
    requires limit <= |file|
    ensures Clip(file, start, end, limit) <= Clip(file, start, end, |file|)
    ensures Boundary(file, limit) && Clip(file, start, end, limit) != [] ==>
              Boundary(Clip(file, start, end, |file|), |Clip(file, start, end, limit)|)
  {
    var lo := Min(Max(start, 0), limit);
    var part, whole := Clip(file, start, end, limit), Clip(file, start, end, |file|);
    if part != [] {
      assert lo == Max(start, 0);
      assert whole == file[lo..Max(lo, Min(end, |file|))];
      if |part| < |whole| { assert whole[|part|] == file[limit]; }
    }
  }

  /** Truncating what has been read so far is truncating the whole, once enough has been read. */
  lemma EnoughHasBeenRead(file: seq<Byte>, start: int, end: int, limit: nat, max: nat, t: seq<Byte>)
    requires limit <= |file| && Boundary(file, limit) && 1 <= max
    requires var part := Clip(file, start, end, limit);
             |part| >= max && if |part| == max then t == part else LongestThatFits(part, max, t)
    ensures LongestThatFits(Clip(file, start, end, |file|), max, t)
    ensures |Clip(file, start, end, |file|)| >= max
  {
    var part, whole := Clip(file, start, end, limit), Clip(file, start, end, |file|);
    ClipIsPrefix(file, start, end, limit);
    forall m | |t| < m <= max && m <= |whole| ensures !Boundary(whole, m) {
      assert m < |part| ==> whole[m] == part[m];
      assert !Boundary(part, m);
    }
    if t != [] && |t| < |part| { assert whole[|t|] == part[|t|]; }
  }

  /** What GetSymbolSource answers when it does not fall back to line numbers. */
  ghost predicate IsSource(whole: seq<Byte>, max: nat, text: seq<Byte>, truncated: bool) {
    LongestThatFits(whole, max, text) && truncated == (|whole| >= max)
  }

  /** TextTruncated errs in one case only: a symbol of exactly `max` bytes is complete, yet called truncated. */
  lemma FlagErrsExactly(whole: seq<Byte>, max: nat, text: seq<Byte>, truncated: bool)
    requires IsSource(whole, max, text, truncated)
    ensures text == whole <==> |whole| <= max
    ensures truncated != (text != whole) <==> |whole| == max
  {
    AllFits(whole, max, text);
  }

  /** For a symbol that lies between runes of a well-formed file, the answer is whole runes, and not empty. */
  lemma AlignedSource(file: seq<Byte>, start: nat, end: nat, max: nat, text: seq<Byte>, truncated: bool)
    requires WellFormed(file) && start < end <= |file| && Boundary(file, start) && Boundary(file, end) && 4 <= max
    requires IsSource(Clip(file, start, end, |file|), max, text, truncated)
    ensures WellFormed(text) && text != [] && text <= file[start..end] && |text| >= Min(end - start, max - 3)
  {
    SliceIsWellFormed(file, start, end);
    assert Clip(file, start, end, |file|) == file[start..end];
    LittleIsLost(file[start..end], max, text);
  }

  lemma StartsBefore(file: seq<Byte>, max: int, path: string, chunks: seq<Chunk>, end: nat, c: Chunk)
    requires Partition(file, max, path, chunks, end) && c in chunks && c != chunks[|chunks| - 1]
    ensures c.byteStart < chunks[|chunks| - 1].byteStart
  {
    var n := |chunks| - 1;
    var k :| 0 <= k < n && chunks[k] == c;
    ChunkIs(file, max, path, chunks, end, k);
    assert chunks[..n][k] == c;
    ChunkFollows(file, max, path, chunks[..n], chunks[n].byteStart, k);
  }

  lemma SameLength<T>(a: seq<T>, b: seq<T>)
    requires multiset(a) == multiset(b)
    ensures |a| == |b|
  {
    assert |a| == |multiset(a)| && |b| == |multiset(b)|;
  }

  lemma SameElements<T>(a: seq<T>, b: seq<T>, x: T)
    requires multiset(a) == multiset(b)
    ensures |a| == |b| && (x in a <==> x in b)
  {
    assert |a| == |multiset(a)| && |b| == |multiset(b)|;
    assert x in a <==> x in multiset(a);
  }

  lemma WithoutLast<T>(a: seq<T>, b: seq<T>)
    requires multiset(a) == multiset(b) && |a| == |b| > 0 && a[|a| - 1] == b[|b| - 1]
    ensures multiset(a[..|a| - 1]) == multiset(b[..|b| - 1])
  {
    var n := |a| - 1;
    var x := a[n];
    assert a == a[..n] + [x] && b == b[..n] + [x];
    assert multiset(a) == multiset(a[..n]) + multiset{x} && multiset(b) == multiset(b[..n]) + multiset{x};
    assert multiset(a[..n]) == multiset(a) - multiset{x} && multiset(b[..n]) == multiset(b) - multiset{x};
  }

  predicate InOrder(nodes: seq<Chunk>) {
    forall i, j :: 0 <= i < j < |nodes| ==> nodes[i].byteStart <= nodes[j].byteStart
  }

  lemma LatestIsLast(file: seq<Byte>, max: int, path: string, chunks: seq<Chunk>, end: nat, nodes: seq<Chunk>)
    requires Partition(file, max, path, chunks, end) && multiset(nodes) == multiset(chunks) && chunks != []
    requires InOrder(nodes)
    ensures |nodes| == |chunks| && nodes[|nodes| - 1] == chunks[|chunks| - 1]
  {
    var n := |chunks| - 1;
    SameElements(nodes, chunks, chunks[n]);
    SameElements(nodes, chunks, nodes[n]);
    if nodes[n] != chunks[n] { StartsBefore(file, max, path, chunks, end, nodes[n]); }
  }

  /** Whatever order the store lists the chunks of a file in, sorting them by byte_start restores their own. */
  lemma {:induction false} SortingRestoresOrder(file: seq<Byte>, max: int, path: string, chunks: seq<Chunk>, end: nat, nodes: seq<Chunk>)
    requires Partition(file, max, path, chunks, end) && multiset(nodes) == multiset(chunks) && InOrder(nodes)
    ensures nodes == chunks
    decreases |chunks|
  {
    SameLength(nodes, chunks);
    if chunks != [] {
      var n := |chunks| - 1;
      LatestIsLast(file, max, path, chunks, end, nodes);
      WithoutLast(nodes, chunks);
      SortingRestoresOrder(file, max, path, chunks[..n], chunks[n].byteStart, nodes[..n]);
      SameWithLast(nodes, chunks);
    }
  }

  lemma SameWithLast<T>(a: seq<T>, b: seq<T>)
    requires |a| == |b| > 0 && a[..|a| - 1] == b[..|b| - 1] && a[|a| - 1] == b[|b| - 1]
    ensures a == b
  {
    assert a == a[..|a| - 1] + [a[|a| - 1]] && b == b[..|b| - 1] + [b[|b| - 1]];
  }

  /** Nothing has been lost of what lies in the first chunks. */
  ghost predicate Built(file: seq<Byte>, nodes: seq<Chunk>, k: nat, start: int, end: int, builder: seq<Byte>) {
    && k <= |nodes|
    && var limit := if k == 0 then 0 else nodes[k - 1].byteEnd;
       limit <= |file| && Boundary(file, limit) && builder == Clip(file, start, end, limit)
  }

  lemma PieceBuilds(file: seq<Byte>, max: int, path: string, nodes: seq<Chunk>, k: nat, start: int, end: int, builder: seq<Byte>)
    requires Partition(file, max, path, nodes, |file|) && k < |nodes| && Built(file, nodes, k, start, end, builder)
    ensures nodes[k].byteStart <= nodes[k].byteEnd && |nodes[k].text| == nodes[k].byteEnd - nodes[k].byteStart
    ensures Built(file, nodes, k + 1, start, end, builder + Piece(nodes[k], start, end))
  {
    ChunkAt(file, max, path, nodes, |file|, k);
    EndIsBoundary(file, max, nodes[k]);
    ClipGrows(file, max, path, k, nodes[k], start, end);
  }

  lemma EarlyExit(file: seq<Byte>, nodes: seq<Chunk>, k: nat, start: int, end: int, builder: seq<Byte>, max: nat, text: seq<Byte>, truncated: bool)
    requires Built(file, nodes, k, start, end, builder) && |builder| >= max >= 1 && IsTruncation(builder, max, text, truncated)
    ensures IsSource(Clip(file, start, end, |file|), max, text, true)
    ensures Clip(file, start, end, |file|) != []
  {
    EnoughHasBeenRead(file, start, end, if k == 0 then 0 else nodes[k - 1].byteEnd, max, text);
  }

  lemma LateExit(file: seq<Byte>, max: int, path: string, nodes: seq<Chunk>, start: int, end: int, builder: seq<Byte>,
                 limit: nat, text: seq<Byte>, truncated: bool)
    requires Partition(file, max, path, nodes, |file|) && Built(file, nodes, |nodes|, start, end, builder)
    requires |builder| < limit && IsTruncation(builder, limit, text, truncated)
    ensures text == Clip(file, start, end, |file|) && IsSource(text, limit, text, truncated)
  {
    if nodes != [] { ChunkFollows(file, max, path, nodes, |file|, |nodes| - 1); }
  }

  /** The body of the loop: what one node adds, if anything. */
  method ClipNode(node: Chunk, startByte: int, endByte: int) returns (piece: seq<Byte>)
    requires node.byteStart <= node.byteEnd && |node.text| == node.byteEnd - node.byteStart
    ensures piece == Piece(node, startByte, endByte)
  {
    if node.byteEnd <= startByte || node.byteStart >= endByte {
      return [];
    }
    var start := Max(startByte, node.byteStart) - node.byteStart;
    var end := Min(endByte, node.byteEnd) - node.byteStart;
    if start < 0 || end < start || start > |node.text| {
      return [];
    }
    if end > |node.text| {
      end := |node.text|;
    }
    return node.text[start..end];
  }

  /** `nodes` are the chunks of `file`, sorted; when nothing of the symbol lies in the file, the source turns to its lines. */
  method GetSymbolSource(ghost file: seq<Byte>, ghost maxChunk: int, ghost path: string,
                         nodes: seq<Chunk>, startByte: int, endByte: int, maxSourceBytes: int)
    returns (text: seq<Byte>, truncated: bool, byLine: bool)
    requires Partition(file, maxChunk, path, nodes, |file|) && WellFormed(file)
    requires 1 <= maxSourceBytes
    ensures byLine <==> Clip(file, startByte, endByte, |file|) == []
    ensures IsSource(Clip(file, startByte, endByte, |file|), maxSourceBytes, text, truncated)
  {
    var builder: seq<Byte> := [];
    var k := 0;
    while k < |nodes|
      invariant Built(file, nodes, k, startByte, endByte, builder)
      invariant |builder| < maxSourceBytes
    {
      PieceBuilds(file, maxChunk, path, nodes, k, startByte, endByte, builder);
      var piece := ClipNode(nodes[k], startByte, endByte);
      builder := builder + piece;
      k := k + 1;
      if |builder| >= maxSourceBytes {
        text, truncated := TruncateUTF8Bytes(builder, maxSourceBytes);
        EarlyExit(file, nodes, k, startByte, endByte, builder, maxSourceBytes, text, truncated);
        return text, true, false;
      }
    }
    text, truncated := TruncateUTF8Bytes(builder, maxSourceBytes);
    LateExit(file, maxChunk, path, nodes, startByte, endByte, builder, maxSourceBytes, text, truncated);
    byLine := text == [];
  }
}
