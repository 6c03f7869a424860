/**
 * Line-oriented reading shared by the reference-transcript parsers: the result of reading
 * one block, blank-line skipping, and trimmed runs of lines.
 */
module Blocks {
  import opened Text

  /** What reading one block yields: the end of the input, a dropped block, or an entry. */
  datatype Step<E> = Stop | Skip(next: nat) | Emit(entry: E, next: nat)

  function SkipBlank(lines: seq<string>, pos: nat): (r: nat)
    requires pos <= |lines|
    ensures pos <= r <= |lines|
    ensures forall k {:trigger IsBlank(lines[k])} :: pos <= k < r ==> IsBlank(lines[k])
    ensures r == |lines| || !IsBlank(lines[r])
    decreases |lines| - pos
  {
    if pos < |lines| && IsBlank(lines[pos]) then SkipBlank(lines, pos + 1) else pos
  }

  /** The lines `from` up to `to`, each trimmed. */
  function TrimmedLines(lines: seq<string>, from: nat, to: nat): seq<string>
    requires from <= to <= |lines|
  {
    seq(to - from, k requires 0 <= k < to - from => Trim(lines[from + k]))
  }

  /**
   * One collected part per line of the range: the line with only its surrounding whitespace
   * removed, so a part has no whitespace at either end, and it is empty exactly for a blank line.
   */
  lemma TrimmedLinesTrimmed(lines: seq<string>, from: nat, to: nat)
    requires from <= to <= |lines|
    ensures |TrimmedLines(lines, from, to)| == to - from
    ensures forall k :: 0 <= k < to - from ==> var part := TrimmedLines(lines, from, to)[k];
      && TrimmedSliceOf(lines[from + k], part)
      && Trim(part) == part
      && (part == [] <==> IsBlank(lines[from + k]))
  {
    var r := TrimmedLines(lines, from, to);
    forall k | 0 <= k < to - from
      ensures TrimmedSliceOf(lines[from + k], r[k]) && Trim(r[k]) == r[k]
    {
      TrimIsSlice(lines[from + k]);
      TrimIdempotent(lines[from + k]);
    }
  }

  /** Advances past blank lines. */
  method SkipBlankLines(lines: seq<string>, start: nat) returns (pos: nat)
    requires start <= |lines|
    ensures pos == SkipBlank(lines, start)
  {
    pos := start;
    while pos < |lines| && IsBlank(lines[pos])
      invariant start <= pos <= |lines|
      invariant SkipBlank(lines, pos) == SkipBlank(lines, start)
    {
      pos := pos + 1;
    }
  }
}
