/**
 * The pure part of the worker's transcription bookkeeping: turning one
 * decoded chunk `{text, timestamp: [start, end]}` into the segment
 * `{index, text, start, end}` that the host displays
 * (src/utils/whisper.worker.js, `processChunk` and `getLastChunkTimestamp`).
 */
module Transcript {
  import opened Wrappers

  /** A chunk as the tokenizer's ASR decoder returns it; `end` is None when unresolved. */
  datatype DecodedChunk = DecodedChunk(text: string, start: real, end: Option<real>)

  /** The externally visible transcript unit. */
  datatype Segment = Segment(index: nat, text: string, start: int, end: int)

  /** `n` is the integer nearest to `x`, halves going up, as JavaScript's `Math.round` picks it. */
  predicate IsNearest(n: int, x: real) {
    n as real - 0.5 <= x < n as real + 0.5
  }

  /** `Math.round` on an exact real. */
  function Round(x: real): (r: int)
    ensures IsNearest(r, x)
  {
    (x + 0.5).Floor
  }

  /** There is only one nearest integer, so `Round` is determined by its contract. */
  lemma RoundUnique(x: real, n: int)
    requires IsNearest(n, x)
    ensures Round(x) == n
  {
  }

  /** The characters `String.prototype.trim` removes: ECMAScript WhiteSpace and LineTerminator. */
  predicate IsJsWhitespace(c: char) {
    c == '\t' || c == '\n' || c == '\U{000B}' || c == '\U{000C}' || c == '\r' || c == ' '
    || c == '\U{00A0}' || c == '\U{1680}' || ('\U{2000}' <= c <= '\U{200A}')
    || c == '\U{2028}' || c == '\U{2029}' || c == '\U{202F}' || c == '\U{205F}'
    || c == '\U{3000}' || c == '\U{FEFF}'
  }

  /** Every character of `s` is whitespace. */
  predicate AllWhitespace(s: string) {
    forall i :: 0 <= i < |s| ==> IsJsWhitespace(s[i])
  }

  /** Scanning forward from `lo`: the index of the first character that is not whitespace, or `|s|`. */
  function FirstKept(s: string, lo: nat): (n: nat)
    requires lo <= |s|
    requires forall i :: 0 <= i < lo ==> IsJsWhitespace(s[i])
    ensures lo <= n <= |s|
    ensures forall i :: 0 <= i < n ==> IsJsWhitespace(s[i])
    ensures n < |s| ==> !IsJsWhitespace(s[n])
    decreases |s| - lo
  {
    if lo < |s| && IsJsWhitespace(s[lo]) then FirstKept(s, lo + 1) else lo
  }

  /** Scanning back from `hi` to no further than `lo`: the index just past the last character kept. */
  function EndKept(s: string, lo: nat, hi: nat): (n: nat)
    requires lo <= hi <= |s|
    requires forall i :: hi <= i < |s| ==> IsJsWhitespace(s[i])
    ensures lo <= n <= hi
    ensures forall i :: n <= i < |s| ==> IsJsWhitespace(s[i])
    ensures n > lo ==> !IsJsWhitespace(s[n - 1])
    decreases hi
  {
    if hi > lo && IsJsWhitespace(s[hi - 1]) then EndKept(s, lo, hi - 1) else hi
  }

  lemma WhitespaceAround(s: string, a: nat, b: nat)
    requires a <= b <= |s|
    requires forall i :: 0 <= i < a ==> IsJsWhitespace(s[i])
    requires forall i :: b <= i < |s| ==> IsJsWhitespace(s[i])
    ensures s == s[..a] + s[a..b] + s[b..] && AllWhitespace(s[..a]) && AllWhitespace(s[b..])
  {
    assert s[..b] == s[..a] + s[a..b];
    assert s == s[..b] + s[b..];
  }

  /**
   * `text.trim()`: what is left once whitespace is stripped from both ends; the parts
   * cut away are whitespace and the result neither starts nor ends with it.
   */
  function Trim(s: string): (r: string)
    ensures |r| <= |s|
    ensures r == [] || (!IsJsWhitespace(r[0]) && !IsJsWhitespace(r[|r| - 1]))
    ensures exists pre, post :: s == pre + r + post && AllWhitespace(pre) && AllWhitespace(post)
  {
    var a := FirstKept(s, 0);
    var b := EndKept(s, a, |s|);
    WhitespaceAround(s, a, b);
    s[a..b]
  }

  /** Trimming twice changes nothing more. */
  lemma TrimIdempotent(s: string)
    ensures Trim(Trim(s)) == Trim(s)
  {
    var r := Trim(s);
    if r != [] {
      assert FirstKept(r, 0) == 0;
      assert EndKept(r, 0, |r|) == |r|;
      assert r[0..|r|] == r;
    }
  }

  /**
   * `processChunk(chunk, index)` with stride length `stride`: the index is kept, the
   * text trimmed, the start rounded; the end is the rounded end when there is one that
   * does not round to 0, and otherwise the rounded `start + 0.9 * stride`.
   */
  function ProcessChunk(chunk: DecodedChunk, index: nat, stride: real): (r: Segment)
    ensures r.index == index && r.text == Trim(chunk.text)
    ensures IsNearest(r.start, chunk.start)
    ensures chunk.end.Some? && !IsNearest(0, chunk.end.value) ==> IsNearest(r.end, chunk.end.value)
    ensures chunk.end.None? || IsNearest(0, chunk.end.value) ==> IsNearest(r.end, chunk.start + 0.9 * stride)
  {
    var end := if chunk.end.Some? && Round(chunk.end.value) != 0
               then Round(chunk.end.value)
               else Round(chunk.start + 0.9 * stride);
    assert chunk.end.Some? && IsNearest(0, chunk.end.value) ==> Round(chunk.end.value) == 0 by {
      if chunk.end.Some? && IsNearest(0, chunk.end.value) { RoundUnique(chunk.end.value, 0); }
    }
    Segment(index, Trim(chunk.text), Round(chunk.start), end)
  }

  /** `chunks.map((chunk, index) => processChunk(chunk, index))`. */
  function ProcessChunks(decoded: seq<DecodedChunk>, stride: real): (r: seq<Segment>)
    ensures |r| == |decoded|
    ensures forall i :: 0 <= i < |r| ==> r[i].index == i && r[i].text == Trim(decoded[i].text)
    ensures forall i :: 0 <= i < |r| ==> r[i] == ProcessChunk(decoded[i], i, stride)
  {
    seq(|decoded|, i requires 0 <= i < |decoded| => ProcessChunk(decoded[i], i, stride))
  }

  /**
   * `getLastChunkTimestamp()`: 0 when there are no processed segments; otherwise the
   * source falls off the end of the function and yields `undefined` (None here).
   */
  function LastChunkTimestamp(processed: seq<Segment>): (r: Option<int>)
    ensures r.Some? <==> processed == []
    ensures r.Some? ==> r.value == 0
  {
    if |processed| == 0 then Some(0) else None
  }

  /** Start 2.3 and end 4.96 give the segment [2, 5]. */
  lemma ProcessChunkRoundsBothEnds()
    ensures var s := ProcessChunk(DecodedChunk("a", 2.3, Some(4.96)), 0, 5.0);
            s.start == 2 && s.end == 5
  {
    RoundUnique(2.3, 2);
    RoundUnique(4.96, 5);
  }

  /** Start 10.2 with no end and stride 5 gives the segment [10, 15]. */
  lemma ProcessChunkMissingEnd()
    ensures var s := ProcessChunk(DecodedChunk("a", 10.2, None), 1, 5.0);
            s.start == 10 && s.end == 15
  {
    RoundUnique(10.2, 10);
    RoundUnique(10.2 + 0.9 * 5.0, 15);
  }

  /** An end of 0.2 rounds to 0, so start 3 takes the fallback end 8. */
  lemma ProcessChunkEndRoundingToZero()
    ensures var s := ProcessChunk(DecodedChunk("a", 3.0, Some(0.2)), 2, 5.0);
            s.start == 3 && s.end == 8
  {
    RoundUnique(3.0, 3);
    RoundUnique(0.2, 0);
    RoundUnique(3.0 + 0.9 * 5.0, 8);
  }

  /** The segment text loses its surrounding blanks. */
  lemma ProcessChunkTrimsText()
    ensures ProcessChunk(DecodedChunk(" hola ", 0.0, None), 0, 5.0).text == "hola"
  {
    var s := " hola ";
    assert IsJsWhitespace(s[0]) && !IsJsWhitespace(s[1]);
    assert FirstKept(s, 1) == 1;
    assert FirstKept(s, 0) == 1;
    assert IsJsWhitespace(s[5]) && !IsJsWhitespace(s[4]);
    assert EndKept(s, 1, 5) == 5;
    assert EndKept(s, 1, 6) == 5;
    assert s[1..5] == "hola";
  }
}
