/**
 * Repeated code, utility functions and hard-coded values; a category worth 15 points.
 * Duplicates are found by tallying, by exact text, every window of 3 to 19 consecutive lines
 * that is longer than 50 characters; the JavaScript and Python analyzers differ only in the
 * utility-name pattern, which is an input here.
 */
module Reusability {
  import opened Text
  import opened Rules

  /** `'\n'.join(lines[i:j])`. */
  function Window(lines: seq<string>, i: nat, j: nat): string
    requires i <= j <= |lines|
  {
    Join(lines[i..j])
  }

  /** `min(i + 20, n)`: the bound the window ends of row `i` stay below. */
  function RowEnd(i: nat, n: nat): nat {
    if i + 20 < n then i + 20 else n
  }

  /** The windows of row `i` ending before `j` (from `i + 3` on) that are longer than 50 characters, in scan order. */
  function RowBlocks(lines: seq<string>, i: nat, j: nat): seq<string>
    requires i <= |lines| && (j <= |lines| || j <= i + 3)
    decreases j
  {
    if j <= i + 3 then []
    else
      var w := Window(lines, i, j - 1);
      RowBlocks(lines, i, j - 1) + (if |w| > 50 then [w] else [])
  }

  /** The windows of rows `0` to `i - 1`, in scan order. */
  function BlocksBefore(lines: seq<string>, i: nat): seq<string>
    requires i <= |lines|
  {
    if i == 0 then []
    else BlocksBefore(lines, i - 1) + RowBlocks(lines, i - 1, RowEnd(i - 1, |lines|))
  }

  /** Every window the scan tallies. */
  function CandidateBlocks(lines: seq<string>): seq<string> {
    BlocksBefore(lines, |lines|)
  }

  /** The `code_blocks` dictionary built from `blocks`: each text mapped to how often it was seen. */
  function Tally(blocks: seq<string>): map<string, nat>
  {
    if blocks == [] then map[]
    else
      var counts := Tally(blocks[..|blocks| - 1]);
      var b := blocks[|blocks| - 1];
      counts[b := if b in counts then counts[b] + 1 else 1]
  }

  /** The dictionary holds exactly the texts seen, each with its number of occurrences. */
  lemma {:induction false} TallyCounts(blocks: seq<string>)
    ensures forall b :: b in Tally(blocks) <==> b in blocks
    ensures forall b :: b in Tally(blocks) ==> Tally(blocks)[b] == multiset(blocks)[b]
  {
    if blocks != [] {
      var init := blocks[..|blocks| - 1];
      TallyCounts(init);
      assert blocks == init + [blocks[|blocks| - 1]];
    }
  }

  /** `sum(1 for count in code_blocks.values() if count > 1)`. */
  function RepeatedBlocks(counts: map<string, nat>): nat {
    |set b | b in counts && counts[b] > 1|
  }

  /** The repeated blocks are the texts that occur more than once among the windows. */
  lemma RepeatedAreMultiple(blocks: seq<string>)
    ensures RepeatedBlocks(Tally(blocks)) == |set b | b in blocks && multiset(blocks)[b] > 1|
  {
    TallyCounts(blocks);
    var counts := Tally(blocks);
    assert (set b | b in counts && counts[b] > 1) == (set b | b in blocks && multiset(blocks)[b] > 1);
  }

  /** Seeing one more text bumps its count, or enters it with count 1. */
  lemma TallyAppend(blocks: seq<string>, block: string)
    ensures Tally(blocks + [block]) ==
      Tally(blocks)[block := if block in Tally(blocks) then Tally(blocks)[block] + 1 else 1]
  {
    assert (blocks + [block])[..|blocks|] == blocks;
  }

  /** Passing window end `j` adds that window to the row when it is longer than 50 characters. */
  lemma RowBlocksStep(lines: seq<string>, i: nat, j: nat)
    requires i + 3 <= j < |lines|
    ensures RowBlocks(lines, i, j + 1) ==
      RowBlocks(lines, i, j) + (if |Window(lines, i, j)| > 50 then [Window(lines, i, j)] else [])
  {
  }

  /** One row of the scan: the windows `lines[i:j]` with `i + 3 <= j < min(i + 20, n)` are
      tallied on top of the counts of the texts `seen` so far. */
  method ScanRow(lines: seq<string>, i: nat, codeBlocks: map<string, nat>, ghost seen: seq<string>)
    returns (updated: map<string, nat>)
    requires i <= |lines| && codeBlocks == Tally(seen)
    ensures updated == Tally(seen + RowBlocks(lines, i, RowEnd(i, |lines|)))
  {
    updated := codeBlocks;
    var n := |lines|;
    var hi := if i + 20 < n then i + 20 else n;
    var j := i + 3;
    ghost var row: seq<string> := [];
    assert seen + row == seen;
    while j < hi
      invariant i + 3 <= j && (j <= hi || j == i + 3)
      invariant row == RowBlocks(lines, i, j)
      invariant updated == Tally(seen + row)
      decreases hi - j
    {
      var block := Join(lines[i..j]);
      RowBlocksStep(lines, i, j);
      if |block| > 50 {
        TallyAppend(seen + row, block);
        assert seen + row + [block] == seen + (row + [block]);
        row := row + [block];
        updated := updated[block := if block in updated then updated[block] + 1 else 1];
      }
      j := j + 1;
    }
    assert row == RowBlocks(lines, i, RowEnd(i, n));
  }

  /** The nested scan over rows `i` and window ends `j` that fills `code_blocks`. */
  method CountBlocks(lines: seq<string>) returns (codeBlocks: map<string, nat>)
    ensures codeBlocks == Tally(CandidateBlocks(lines))
  {
    codeBlocks := map[];
    for i := 0 to |lines|
      invariant codeBlocks == Tally(BlocksBefore(lines, i))
    {
      codeBlocks := ScanRow(lines, i, codeBlocks, BlocksBefore(lines, i));
    }
  }

  /** Every tallied text is a window of 3 to 19 lines, `lines[i:j]` with `i + 3 <= j < min(i + 20, n)`,
      longer than 50 characters. */
  lemma {:induction false} CandidatesAreWindows(lines: seq<string>, i: nat)
    requires i <= |lines|
    ensures forall b :: b in BlocksBefore(lines, i) ==>
      |b| > 50 && exists r: nat, j: nat :: r < i && r + 3 <= j < RowEnd(r, |lines|) && b == Window(lines, r, j)
  {
    if i > 0 {
      CandidatesAreWindows(lines, i - 1);
      RowBlocksAreWindows(lines, i - 1, RowEnd(i - 1, |lines|));
    }
  }

  lemma {:induction false} RowBlocksAreWindows(lines: seq<string>, i: nat, j: nat)
    requires i <= |lines| && j <= |lines|
    ensures forall b :: b in RowBlocks(lines, i, j) ==>
      |b| > 50 && exists k :: i + 3 <= k < j && b == Window(lines, i, k)
    decreases j
  {
    if j > i + 3 {
      RowBlocksAreWindows(lines, i, j - 1);
    }
  }

  /** Conversely, every such window longer than 50 characters is tallied. */
  lemma {:induction false} WindowsAreCandidates(lines: seq<string>, i: nat, r: nat, j: nat)
    requires i <= |lines| && r < i && r + 3 <= j < RowEnd(r, |lines|)
    requires |Window(lines, r, j)| > 50
    ensures Window(lines, r, j) in BlocksBefore(lines, i)
  {
    if r == i - 1 {
      WindowInRow(lines, r, RowEnd(r, |lines|), j);
    } else {
      WindowsAreCandidates(lines, i - 1, r, j);
    }
  }

  lemma {:induction false} WindowInRow(lines: seq<string>, i: nat, hi: nat, j: nat)
    requires i + 3 <= j < hi <= |lines|
    requires |Window(lines, i, j)| > 50
    ensures Window(lines, i, j) in RowBlocks(lines, i, hi)
    decreases hi
  {
    if j < hi - 1 {
      WindowInRow(lines, i, hi - 1, j);
    }
  }

  /** With fewer than 4 lines no window fits, so nothing can repeat. */
  lemma ShortFileHasNoRepeats(lines: seq<string>)
    requires |lines| < 4
    ensures CandidateBlocks(lines) == [] && RepeatedBlocks(Tally(CandidateBlocks(lines))) == 0
  {
    EmptyRows(lines, |lines|);
    RepeatedAreMultiple([]);
    var none: seq<string> := [];
    assert (set b | b in none && multiset(none)[b] > 1) == {};
  }

  lemma {:induction false} EmptyRows(lines: seq<string>, i: nat)
    requires |lines| < 4 && i <= |lines|
    ensures BlocksBefore(lines, i) == []
  {
    if i > 0 {
      EmptyRows(lines, i - 1);
    }
  }

  /** The reusability table: 2 per repeated block (up to 10), 3 when fewer than 2 utility
      declarations are found, 1 per hard-coded value (up to 5). */
  function ReusabilityRules(code: string, utilityDecls: nat, hardcodedValues: nat): seq<Rule> {
    [ Rule(2 * RepeatedBlocks(Tally(CandidateBlocks(Split(code)))), 10),
      Flag(utilityDecls < 2, 3),
      Rule(hardcodedValues, 5) ]
  }

  method AnalyzeReusability(code: string, utilityDecls: nat, hardcodedValues: nat) returns (score: int)
    ensures 0 <= score <= 15
    ensures score == Score(15, ReusabilityRules(code, utilityDecls, hardcodedValues))
  {
    ghost var table := ReusabilityRules(code, utilityDecls, hardcodedValues);
    TotalOfThree(table);
    score := 15;
    var lines := Split(code);
    var codeBlocks := CountBlocks(lines);
    var repeatedBlocks := RepeatedBlocks(codeBlocks);
    score := score - Min(10, repeatedBlocks * 2);
    if utilityDecls < 2 {
      score := score - 3;
    }
    score := score - Min(5, hardcodedValues);
    score := if score < 0 then 0 else score;
  }
}
