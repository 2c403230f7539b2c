/** Splitting a file into overlapping chunks of lines. */
module Chunker {

  datatype Chunker = Chunker(target: int, overlap: int)

  /** Out-of-range settings fall back to 60 lines and an overlap of 10. */
  function NewCodeChunker(targetLines: int, overlap: int): Chunker {
    var target := if targetLines <= 0 then 60 else targetLines;
    Chunker(target, if overlap < 0 || overlap >= target then 10 else overlap)
  }

  /** The loop advances: each chunk starts after the one before. */
  predicate Advances(c: Chunker) { 0 <= c.overlap < c.target }

  /** Where the chunking stands after some rounds: about to cut the chunk that starts here, done, or
      stopped by a slice out of range. */
  datatype Progress = At(start: int) | Finished | Panics

  /** One round of the loop on a file of n lines. */
  function Round(c: Chunker, n: nat, p: Progress): Progress {
    if !p.At? then p
    else if p.start >= n then Finished
    else
      var end := if p.start + c.target > n then n else p.start + c.target;
      if !(0 <= p.start <= end) then Panics
      else if end == n then Finished
      else At(p.start + c.target - c.overlap)
  }

  /** A file that fits one chunk never enters the loop. */
  function Iter(c: Chunker, n: nat, k: nat): Progress {
    if k == 0 then (if n <= c.target then Finished else At(0)) else Round(c, n, Iter(c, n, k - 1))
  }

  ghost predicate Reaches(c: Chunker, n: nat, p: Progress) { exists k: nat :: Iter(c, n, k) == p }

  ghost predicate RunsForever(c: Chunker, n: nat) { forall k: nat :: Iter(c, n, k).At? }

  lemma Reached(c: Chunker, n: nat, k: nat)
    ensures Reaches(c, n, Iter(c, n, k)) && (RunsForever(c, n) ==> Iter(c, n, k).At?)
  {
  }

  /** An advancing chunker finishes from any round. */
  lemma {:induction false} Arrives(c: Chunker, n: nat, k: nat) returns (last: nat)
    requires Advances(c) && Iter(c, n, k) != Panics && (Iter(c, n, k).At? ==> 0 <= Iter(c, n, k).start)
    ensures Iter(c, n, last) == Finished
    decreases if Iter(c, n, k).At? && Iter(c, n, k).start < n then n - Iter(c, n, k).start else 0,
              if Iter(c, n, k).At? then 1 else 0
  {
    if Iter(c, n, k).Finished? { return k; }
    last := Arrives(c, n, k + 1);
  }

  /** A chunker that does not advance cuts its first chunk for ever, or slices before the file. */
  lemma {:induction false} NeverArrives(c: Chunker, n: nat, k: nat)
    requires 1 <= c.target < n && c.target <= c.overlap
    ensures Iter(c, n, k) ==
      if c.target == c.overlap || k == 0 then At(0) else if k == 1 then At(c.target - c.overlap) else Panics
  {
    if k > 0 { NeverArrives(c, n, k - 1); }
  }

  /** Chunking returns exactly for a file that fits one chunk or a chunker that advances. Otherwise it
      panics if the overlap is larger than the target, and runs for ever if they are equal. */
  lemma ReturnsExactly(targetLines: int, overlap: int, n: nat)
    ensures var c := NewCodeChunker(targetLines, overlap);
      && (Reaches(c, n, Finished) <==> n <= c.target || Advances(c))
      && (Reaches(c, n, Panics) <==> n > c.target && c.overlap > c.target)
      && (RunsForever(c, n) <==> n > c.target && c.overlap == c.target)
      && c.target == (if targetLines > 0 then targetLines else 60)
      && c.overlap == (if 0 <= overlap < c.target then overlap else 10)
      && (Advances(c) <==> targetLines <= 0 || targetLines > 10 || 0 <= overlap < targetLines)
  {
    var c := NewCodeChunker(targetLines, overlap);
    if n <= c.target || Advances(c) {
      forall k ensures !Iter(c, n, k).Panics? && (n <= c.target ==> Iter(c, n, k) == Finished) {
        NeverPanics(c, n, k);
      }
      var last := 0;
      if n > c.target { last := Arrives(c, n, 0); }
      Reached(c, n, last);
    } else {
      forall k ensures Iter(c, n, k) != Finished && (c.overlap == c.target ==> Iter(c, n, k) == At(0)) {
        NeverArrives(c, n, k);
      }
      NeverArrives(c, n, 2);
      Reached(c, n, 2);
    }
  }

  lemma {:induction false} NeverPanics(c: Chunker, n: nat, k: nat)
    requires n <= c.target || Advances(c)
    ensures n <= c.target ==> Iter(c, n, k) == Finished
    ensures !Iter(c, n, k).Panics? && (Iter(c, n, k).At? ==> 0 <= Iter(c, n, k).start)
  {
    if k > 0 { NeverPanics(c, n, k - 1); }
  }

  /** What one round does at a position inside the file. */
  lemma Cut(c: Chunker, n: nat, k: nat, start: nat)
    requires c.target >= 1 && start < n && Iter(c, n, k) == At(start)
    ensures Iter(c, n, k + 1) == if start + c.target >= n then Finished else At(start + c.target - c.overlap)
  {
  }

  /** Two requests whose fallback overlap is too large: one chunking never returns, the other panics. */
  lemma StuckChunkers()
    ensures RunsForever(NewCodeChunker(10, 10), 11)
    ensures Iter(NewCodeChunker(5, 5), 6, 1) == At(-5) && Iter(NewCodeChunker(5, 5), 6, 2) == Panics
  {
    ReturnsExactly(10, 10, 11);
    NeverArrives(NewCodeChunker(5, 5), 6, 1);
    NeverArrives(NewCodeChunker(5, 5), 6, 2);
  }

  /** startLine and endLine count from one and are inclusive. */
  datatype Chunk = Chunk(startLine: int, endLine: int, lines: seq<string>)

  /** The file a list of chunks came from: every later chunk without its overlap. */
  function Restore(chunks: seq<Chunk>, overlap: nat): seq<string> {
    if chunks == [] then []
    else if |chunks| == 1 then chunks[0].lines
    else
      var c := chunks[|chunks| - 1];
      Restore(chunks[..|chunks| - 1], overlap) + (if overlap <= |c.lines| then c.lines[overlap..] else [])
  }

  /** The chunk holds exactly the lines its numbers name. */
  predicate Located(c: Chunk, file: seq<string>) {
    1 <= c.startLine && c.startLine - 1 <= c.endLine <= |file| && c.lines == file[c.startLine - 1..c.endLine]
  }

  /** Appending the next chunk restores the file up to its end. */
  lemma RestoreNext(chunks: seq<Chunk>, overlap: nat, file: seq<string>, start: nat, covered: nat, end: nat)
    requires start <= covered <= end <= |file| && Restore(chunks, overlap) == file[..covered]
    requires if chunks == [] then start == covered == 0 else covered == start + overlap
    ensures Restore(chunks + [Chunk(start + 1, end, file[start..end])], overlap) == file[..end]
  {
    var c := Chunk(start + 1, end, file[start..end]);
    assert (chunks + [c])[..|chunks|] == chunks;
    if chunks != [] { assert file[..covered] + file[start..end][overlap..] == file[..end]; }
  }

  lemma StepTwice(n: nat, step: int)
    ensures (n + 1) * step == n * step + step
  {
  }

  /** Cuts a file into chunks. They are at most target lines long, carry their true line numbers, and
      dropping the overlap of each later chunk restores the file. */
  method ChunkFile(c: Chunker, file: seq<string>) returns (chunks: seq<Chunk>)
    requires 1 <= |file| && 1 <= c.target && (|file| <= c.target || Advances(c))
    ensures forall i | 0 <= i < |chunks| :: Located(chunks[i], file) && 1 <= |chunks[i].lines| <= c.target
    ensures |file| <= c.target ==> chunks == [Chunk(1, |file|, file)]
    ensures |file| > c.target ==> Restore(chunks, c.overlap) == file
    ensures |file| > c.target ==> Iter(c, |file|, |chunks|) == Finished && Iter(c, |file|, |chunks| - 1).At?
    ensures |file| > c.target ==>
      forall i | 0 <= i < |chunks| :: chunks[i].startLine == i * (c.target - c.overlap) + 1
  {
    hide Restore, Iter;
    chunks := [];
    if |file| <= c.target { return [Chunk(1, |file|, file)]; }
    var step := c.target - c.overlap;
    var start, end := 0, 0;
    RestoreNone(c, file);
    while start < |file|
      invariant 0 <= start && start == |chunks| * step && end < |file|
      invariant if chunks == [] then end == start == 0 else end == start + c.overlap
      invariant forall i | 0 <= i < |chunks| :: Located(chunks[i], file) && 1 <= |chunks[i].lines| <= c.target
      invariant forall i | 0 <= i < |chunks| :: chunks[i].startLine == i * step + 1
      invariant Restore(chunks, c.overlap) == file[..end] && Iter(c, |file|, |chunks|) == At(start)
      decreases |file| - start
    {
      ghost var covered := end;
      end := if start + c.target > |file| then |file| else start + c.target;
      RestoreNext(chunks, c.overlap, file, start, covered, end);
      StepTwice(|chunks|, step);
      Cut(c, |file|, |chunks|, start);
      chunks := chunks + [Chunk(start + 1, end, file[start..end])];
      if end == |file| {
        assert file[..end] == file;
        return;
      }
      start := start + step;
    }
  }

  lemma RestoreNone(c: Chunker, file: seq<string>)
    requires 0 <= c.overlap && c.target < |file|
    ensures Restore([], c.overlap) == file[..0] && Iter(c, |file|, 0) == At(0)
  {
  }
}
