/** The stream rewriter (`DoxypypyPlantUml.process_input`): copies the
    doxypypy output line by line, drops the mangled PlantUML regions and, at
    each end-tag line, prints the next block of the original file instead. */
module Rewriter {
  import opened PyStr
  import opened PlantUml

  /** The loop state of `process_input`, with what has been printed so far
      and the exception raised, if any (lines printed before an exception
      stay printed). */
  datatype Machine = Machine(
    skipUmlLine: bool,
    umlBlockIndex: nat,
    output: seq<string>,
    error: Option<Error>)

  const Initial := Machine(false, 0, [], None)

  /** One iteration of the loop on the raw stream line `raw`. */
  function Step(blocks: seq<PlantUmlBlock>, m: Machine, raw: string): (r: Machine)
    ensures m.error.Some? ==> r == m
    ensures m.output <= r.output
    ensures r.umlBlockIndex == m.umlBlockIndex ||
      (r.umlBlockIndex == m.umlBlockIndex + 1 && m.umlBlockIndex < |blocks|)
    ensures m.error.None? && r.error.Some? ==>
      |blocks| <= m.umlBlockIndex && r.error == Some(BlockIndexOutOfRange(m.umlBlockIndex))
  {
    if m.error.Some? then m
    else
      var line := RStrip(raw);
      if HasStartTag(line) then m.(skipUmlLine := true)
      else if HasEndTag(line) then
        match LookupBlock(blocks, m.umlBlockIndex)
        case Err(e) => m.(error := Some(e))
        case Ok(b) => Machine(false, m.umlBlockIndex + 1, m.output + DoxypypyStyle(b, line), None)
      else if !m.skipUmlLine then m.(output := m.output + [line])
      else m
  }

  /** The state after the first `n` stream lines. */
  function Run(blocks: seq<PlantUmlBlock>, input: seq<string>, n: nat): (r: Machine)
    requires n <= |input|
    ensures r.umlBlockIndex <= n && r.umlBlockIndex <= |blocks|
  {
    if n == 0 then Initial else Step(blocks, Run(blocks, input, n - 1), input[n - 1])
  }

  /** The state after the whole stream. */
  function ProcessedStream(blocks: seq<PlantUmlBlock>, input: seq<string>): Machine {
    Run(blocks, input, |input|)
  }

  // ---------------------------------------------------------------------
  // Independent description of the rewriting

  /** A region is open after the first `n` stream lines: some start line
      among them is followed by no end line. */
  ghost predicate OpenAfter(input: seq<string>, n: nat)
    requires n <= |input|
  {
    exists j :: 0 <= j < n && HasStartTag(input[j]) &&
      forall m :: j < m < n ==> !IsEndLine(input[m])
  }

  /** What stream line `i` contributes to the output: nothing for a start
      line; for the k-th end line (open region or not) block k rendered at
      the end line's `#` column; for any other line, the right-stripped line
      unless a region is open. */
  ghost function Segment(blocks: seq<PlantUmlBlock>, input: seq<string>, i: nat): seq<string>
    requires i < |input|
  {
    if HasStartTag(input[i]) then []
    else if HasEndTag(input[i]) then
      var k := |EndLines(input, i)|;
      if k < |blocks| then DoxypypyStyle(blocks[k], RStrip(input[i])) else []
    else if OpenAfter(input, i) then []
    else [RStrip(input[i])]
  }

  /** The contributions of the first `n` stream lines, in stream order. */
  ghost function Expected(blocks: seq<PlantUmlBlock>, input: seq<string>, n: nat): seq<string>
    requires n <= |input|
  {
    if n == 0 then [] else Expected(blocks, input, n - 1) + Segment(blocks, input, n - 1)
  }

  /** How a region opens and closes, line by line. */
  lemma OpenAfterStep(input: seq<string>, n: nat)
    requires n < |input|
    ensures OpenAfter(input, n + 1) <==>
      HasStartTag(input[n]) || (!IsEndLine(input[n]) && OpenAfter(input, n))
  {
    if HasStartTag(input[n]) {
      assert 0 <= n < n + 1 && HasStartTag(input[n]);
    } else if !IsEndLine(input[n]) {
      if OpenAfter(input, n + 1) {
        var j :| 0 <= j < n + 1 && HasStartTag(input[j]) &&
          forall m :: j < m < n + 1 ==> !IsEndLine(input[m]);
        assert j < n;
      }
      if OpenAfter(input, n) {
        var j :| 0 <= j < n && HasStartTag(input[j]) &&
          forall m :: j < m < n ==> !IsEndLine(input[m]);
        assert forall m :: j < m < n + 1 ==> !IsEndLine(input[m]);
      }
    }
  }

  /** `m` is what the first `n` stream lines should give: it has raised
      exactly when more end lines were seen than there are blocks (and then
      for the index one past the last block); otherwise it has used one block
      per end line, skips exactly while a region is open, and has printed the
      contributions of the lines so far. */
  ghost predicate Agrees(blocks: seq<PlantUmlBlock>, input: seq<string>, n: nat, m: Machine)
    requires n <= |input|
  {
    (m.error.None? <==> |EndLines(input, n)| <= |blocks|) &&
    (m.error.Some? ==> m.error == Some(BlockIndexOutOfRange(|blocks|))) &&
    (m.error.None? ==>
      m.umlBlockIndex == |EndLines(input, n)| &&
      (m.skipUmlLine <==> OpenAfter(input, n)) &&
      m.output == Expected(blocks, input, n))
  }

  /** The loop after `n` lines, described without the loop. */
  lemma {:induction false} RunInvariant(blocks: seq<PlantUmlBlock>, input: seq<string>, n: nat)
    requires n <= |input|
    ensures Agrees(blocks, input, n, Run(blocks, input, n))
  {
    if n > 0 {
      RunInvariant(blocks, input, n - 1);
      StepAgrees(blocks, input, n - 1, Run(blocks, input, n - 1));
    }
  }

  /** One iteration keeps the loop state in agreement with the description. */
  lemma StepAgrees(blocks: seq<PlantUmlBlock>, input: seq<string>, i: nat, m: Machine)
    requires i < |input| && Agrees(blocks, input, i, m)
    ensures Agrees(blocks, input, i + 1, Step(blocks, m, input[i]))
  {
    TagsIgnoreTrailingSpace(input[i]);
    OpenAfterStep(input, i);
    if m.error.Some? {
      assert |EndLines(input, i)| <= |EndLines(input, i + 1)|;
    } else if HasStartTag(input[i]) {
      StartStepAgrees(blocks, input, i, m);
    } else if HasEndTag(input[i]) {
      assert EndLines(input, i + 1) == EndLines(input, i) + [i];
      if |EndLines(input, i)| < |blocks| {
        EndStepAgrees(blocks, input, i, m);
      }
    } else {
      PlainStepAgrees(blocks, input, i, m);
    }
  }

  /** A start line opens a region and prints nothing. */
  lemma StartStepAgrees(blocks: seq<PlantUmlBlock>, input: seq<string>, i: nat, m: Machine)
    requires i < |input| && Agrees(blocks, input, i, m) && m.error.None?
    requires HasStartTag(input[i]) && HasStartTag(RStrip(input[i])) && OpenAfter(input, i + 1)
    ensures Agrees(blocks, input, i + 1, Step(blocks, m, input[i]))
  {
    assert EndLines(input, i + 1) == EndLines(input, i);
    assert Expected(blocks, input, i + 1) == Expected(blocks, input, i);
  }

  /** A line with no tag is printed, right-stripped, unless a region is
      open. */
  lemma PlainStepAgrees(blocks: seq<PlantUmlBlock>, input: seq<string>, i: nat, m: Machine)
    requires i < |input| && Agrees(blocks, input, i, m) && m.error.None?
    requires !HasStartTag(input[i]) && !HasEndTag(input[i])
    requires !HasStartTag(RStrip(input[i])) && !HasEndTag(RStrip(input[i]))
    requires OpenAfter(input, i + 1) == OpenAfter(input, i)
    ensures Agrees(blocks, input, i + 1, Step(blocks, m, input[i]))
  {
    assert EndLines(input, i + 1) == EndLines(input, i);
  }

  /** An end line whose block exists prints it and closes the region. */
  lemma EndStepAgrees(blocks: seq<PlantUmlBlock>, input: seq<string>, i: nat, m: Machine)
    requires i < |input| && Agrees(blocks, input, i, m) && m.error.None?
    requires IsEndLine(input[i]) && |EndLines(input, i)| < |blocks|
    requires IsEndLine(RStrip(input[i])) && !OpenAfter(input, i + 1)
    requires EndLines(input, i + 1) == EndLines(input, i) + [i]
    ensures Agrees(blocks, input, i + 1, Step(blocks, m, input[i]))
  {
    var k := |EndLines(input, i)|;
    var line := RStrip(input[i]);
    assert LookupBlock(blocks, m.umlBlockIndex) == Ok(blocks[k]);
    assert Step(blocks, m, input[i]) == Machine(false, k + 1, m.output + DoxypypyStyle(blocks[k], line), None);
    assert Segment(blocks, input, i) == DoxypypyStyle(blocks[k], line);
  }

  /** The rewrite raises exactly when the stream has more end lines than the
      original file has blocks; a region left open at the end of the stream
      is not an error. */
  lemma ProcessFailsIff(blocks: seq<PlantUmlBlock>, input: seq<string>)
    ensures ProcessedStream(blocks, input).error.Some? <==> |EndLines(input, |input|)| > |blocks|
    ensures ProcessedStream(blocks, input).error.Some? ==>
      ProcessedStream(blocks, input).error == Some(BlockIndexOutOfRange(|blocks|))
    ensures ProcessedStream(blocks, input).error.None? ==>
      ProcessedStream(blocks, input).umlBlockIndex == |EndLines(input, |input|)|
  {
    RunInvariant(blocks, input, |input|);
  }

  /** Printed lines are never taken back. */
  lemma {:induction false} OutputGrows(blocks: seq<PlantUmlBlock>, input: seq<string>, n: nat, m: nat)
    requires n <= m <= |input|
    ensures Run(blocks, input, n).output <= Run(blocks, input, m).output
  {
    if n < m {
      OutputGrows(blocks, input, n, m - 1);
      var last := Run(blocks, input, m - 1);
      PrefixTransitive(Run(blocks, input, n).output, last.output, Step(blocks, last, input[m - 1]).output);
    }
  }

  /** `<=` on sequences (being a prefix) is transitive. */
  lemma PrefixTransitive(a: seq<string>, b: seq<string>, c: seq<string>)
    requires a <= b && b <= c
    ensures a <= c
  {
  }

  /** The k-th end line of the stream is preceded by exactly k end lines. */
  lemma {:induction false} EndLinesBefore(input: seq<string>, n: nat, k: nat)
    requires n <= |input| && k < |EndLines(input, n)|
    ensures |EndLines(input, EndLines(input, n)[k])| == k
  {
    if IsEndLine(input[n - 1]) && k == |EndLines(input, n)| - 1 {
      assert EndLines(input, n)[k] == n - 1;
    } else {
      if IsEndLine(input[n - 1]) {
        assert EndLines(input, n)[k] == EndLines(input, n - 1)[k];
      }
      EndLinesBefore(input, n - 1, k);
    }
  }

  /** The k-th end line of the stream (counting from 0) emits block k, right
      after everything printed for the lines before it, provided block k
      exists. */
  lemma EndLineEmitsBlock(blocks: seq<PlantUmlBlock>, input: seq<string>, k: nat)
    requires k < |EndLines(input, |input|)| && k < |blocks|
    ensures var e := EndLines(input, |input|)[k];
      var before := Run(blocks, input, e).output;
      var emitted := DoxypypyStyle(blocks[k], RStrip(input[e]));
      var out := ProcessedStream(blocks, input).output;
      |before| + |emitted| <= |out| &&
      out[..|before| + |emitted|] == before + emitted
  {
    var e := EndLines(input, |input|)[k];
    EndLinesBefore(input, |input|, k);
    EndLineStep(blocks, input, e);
    OutputGrows(blocks, input, e + 1, |input|);
  }

  /** At an end line whose block exists, the loop prints exactly that block,
      whether or not a region was open. */
  lemma EndLineStep(blocks: seq<PlantUmlBlock>, input: seq<string>, e: nat)
    requires e < |input| && IsEndLine(input[e]) && |EndLines(input, e)| < |blocks|
    ensures Run(blocks, input, e + 1).output ==
      Run(blocks, input, e).output + DoxypypyStyle(blocks[|EndLines(input, e)|], RStrip(input[e]))
  {
    RunInvariant(blocks, input, e);
    TagsIgnoreTrailingSpace(input[e]);
    var prev := Run(blocks, input, e);
    assert prev.error.None? && prev.umlBlockIndex == |EndLines(input, e)|;
    assert LookupBlock(blocks, prev.umlBlockIndex) == Ok(blocks[|EndLines(input, e)|]);
  }

  /** Every printed line is already right-stripped. */
  lemma {:induction false} OutputIsRightStripped(blocks: seq<PlantUmlBlock>, input: seq<string>, n: nat)
    requires n <= |input|
    ensures forall j :: 0 <= j < |Run(blocks, input, n).output| ==>
      RStrip(Run(blocks, input, n).output[j]) == Run(blocks, input, n).output[j]
  {
    if n > 0 {
      OutputIsRightStripped(blocks, input, n - 1);
      var prev := Run(blocks, input, n - 1);
      var line := RStrip(input[n - 1]);
      RStripIdempotent(input[n - 1]);
      if prev.error.None? && !HasStartTag(line) && HasEndTag(line)
        && LookupBlock(blocks, prev.umlBlockIndex).Ok?
      {
        var b := LookupBlock(blocks, prev.umlBlockIndex).value;
        forall i | 0 <= i < |b.lines|
          ensures RStrip(DoxypypyStyle(b, line)[i]) == DoxypypyStyle(b, line)[i]
        {
          DoxypypyStyleShape(b, line, i);
        }
      }
    }
  }

  /** A stream without tags comes out line for line, right-stripped, with
      no error and no region open. */
  lemma {:induction false} TagFreeStreamPassesThrough(blocks: seq<PlantUmlBlock>, input: seq<string>, n: nat)
    requires n <= |input|
    requires forall i :: 0 <= i < |input| ==> !HasStartTag(input[i]) && !HasEndTag(input[i])
    ensures var m := Run(blocks, input, n);
      m.error.None? && !m.skipUmlLine && m.umlBlockIndex == 0 &&
      |m.output| == n &&
      forall i :: 0 <= i < n ==> m.output[i] == RStrip(input[i])
  {
    if n > 0 {
      TagFreeStreamPassesThrough(blocks, input, n - 1);
      TagsIgnoreTrailingSpace(input[n - 1]);
    }
  }

  /** Filtering a tag-free stream a second time changes nothing. */
  lemma TagFreeIdempotent(blocks: seq<PlantUmlBlock>, input: seq<string>)
    requires forall i :: 0 <= i < |input| ==> !HasStartTag(input[i]) && !HasEndTag(input[i])
    ensures var once := ProcessedStream(blocks, input).output;
      ProcessedStream(blocks, once) == ProcessedStream(blocks, input)
  {
    var once := ProcessedStream(blocks, input).output;
    TagFreeStreamPassesThrough(blocks, input, |input|);
    forall i | 0 <= i < |once|
      ensures !HasStartTag(once[i]) && !HasEndTag(once[i])
      ensures RStrip(once[i]) == once[i]
    {
      TagsIgnoreTrailingSpace(input[i]);
      RStripIdempotent(input[i]);
    }
    TagFreeStreamPassesThrough(blocks, once, |once|);
  }

  /** End to end: when the original file's blocks were extracted, the k-th
      end line of the stream is replaced by the original lines from the
      latest start line before the file's k-th end line through that end
      line, normalised and rendered at the stream end line's `#` column. */
  lemma SubstitutesOriginalBlock(fileLines: seq<string>, blocks: seq<PlantUmlBlock>, input: seq<string>, k: nat)
    requires ExtractBlocks(fileLines) == Ok(blocks)
    requires k < |EndLines(input, |input|)| && k < |EndLines(fileLines, |fileLines|)|
    ensures var fileEnd := EndLines(fileLines, |fileLines|)[k];
      var streamEnd := EndLines(input, |input|)[k];
      var before := Run(blocks, input, streamEnd).output;
      Truthy(LastStartBefore(fileLines, fileEnd)) &&
      var emitted := DoxypypyStyle(BlockClosedAt(fileLines, fileEnd), RStrip(input[streamEnd]));
      var out := ProcessedStream(blocks, input).output;
      |before| + |emitted| <= |out| &&
      out[..|before| + |emitted|] == before + emitted
  {
    var fileEnd := EndLines(fileLines, |fileLines|)[k];
    var streamEnd := EndLines(input, |input|)[k];
    ExtractedBlockAt(fileLines, blocks, k);
    EndLineEmitsBlock(blocks, input, k);
  }

  /** After the start line `j` of a region that no end line closes, the
      stream lines use no block and contribute nothing. */
  lemma {:induction false} OpenRegionAddsNothing(blocks: seq<PlantUmlBlock>, input: seq<string>, j: nat, n: nat)
    requires j < n <= |input| && HasStartTag(input[j])
    requires forall m :: j < m < n ==> !IsEndLine(input[m])
    ensures EndLines(input, n) == EndLines(input, j + 1)
    ensures Expected(blocks, input, n) == Expected(blocks, input, j)
  {
    if n == j + 1 {
      assert Segment(blocks, input, j) == [];
    } else {
      OpenRegionAddsNothing(blocks, input, j, n - 1);
      var i := n - 1;
      assert !IsEndLine(input[i]);
      if !HasStartTag(input[i]) {
        assert OpenAfter(input, i) by {
          assert 0 <= j < i && HasStartTag(input[j]);
        }
      }
      assert Segment(blocks, input, i) == [];
    }
  }

  /** A stream that ends inside a region (opened at line `j`) raises nothing
      while the file has enough blocks for its end lines; it is still
      skipping at the end, and the region's lines are lost: the output is
      what it was before line `j`. */
  lemma UnterminatedRegionIsDropped(blocks: seq<PlantUmlBlock>, input: seq<string>, j: nat)
    requires j < |input| && HasStartTag(input[j])
    requires forall m :: j < m < |input| ==> !IsEndLine(input[m])
    requires |EndLines(input, |input|)| <= |blocks|
    ensures ProcessedStream(blocks, input).error.None?
    ensures ProcessedStream(blocks, input).skipUmlLine
    ensures ProcessedStream(blocks, input).output == Run(blocks, input, j).output
  {
    OpenRegionAddsNothing(blocks, input, j, |input|);
    assert EndLines(input, j + 1) == EndLines(input, j);
    RunInvariant(blocks, input, j);
    RunInvariant(blocks, input, |input|);
    assert OpenAfter(input, |input|) by {
      assert 0 <= j < |input| && HasStartTag(input[j]);
    }
  }

  // ---------------------------------------------------------------------
  // DoxypypyPlantUml

  class DoxypypyPlantUml {
    const blockFinder: PlantUmlBlockFinder

    constructor (finder: PlantUmlBlockFinder)
      ensures blockFinder == finder
    {
      blockFinder := finder;
    }

    /** `DoxypypyPlantUml(original_input_file)`: the file's lines are given;
        the constructor raises what the block finder raises. */
    static method Create(fileLines: seq<string>) returns (r: Result<DoxypypyPlantUml>)
      ensures r.Err? <==> ExtractBlocks(fileLines).Err?
      ensures r.Err? ==> r.error == ExtractBlocks(fileLines).error
      ensures r.Ok? ==> fresh(r.value) && r.value.blockFinder.lines == fileLines
      ensures r.Ok? ==> r.value.blockFinder.blocks == ExtractBlocks(fileLines).value
    {
      var finder := PlantUmlBlockFinder.Create(fileLines);
      if finder.Err? {
        return Err(finder.error);
      }
      var program := new DoxypypyPlantUml(finder.value);
      return Ok(program);
    }

    /** `process_input`: the stream lines are given; the printed lines are
        returned together with the exception that ended the loop, if any. */
    method ProcessInput(input: seq<string>) returns (output: seq<string>, error: Option<Error>)
      ensures output == ProcessedStream(blockFinder.blocks, input).output
      ensures error == ProcessedStream(blockFinder.blocks, input).error
    {
      var blocks := blockFinder.blocks;
      var skipUmlLine := false;
      var umlBlockIndex: nat := 0;
      output := [];
      for i := 0 to |input|
        invariant Run(blocks, input, i) == Machine(skipUmlLine, umlBlockIndex, output, None)
      {
        var currentLine := RStrip(input[i]);
        if HasStartTag(currentLine) {
          skipUmlLine := true;
        } else if HasEndTag(currentLine) {
          var currentBlock := blockFinder.GetPlantUmlBlock(umlBlockIndex);
          if currentBlock.Err? {
            error := Some(currentBlock.error);
            RunErrorPersists(blocks, input, i + 1, |input|);
            return;
          }
          var printed := OutputInDoxypypyStyle(currentBlock.value, currentLine);
          output := output + printed;
          umlBlockIndex := umlBlockIndex + 1;
          skipUmlLine := false;
        } else if !skipUmlLine {
          output := output + [currentLine];
        }
      }
      error := None;
    }
  }

  /** Once the loop has raised, nothing further happens. */
  lemma {:induction false} RunErrorPersists(blocks: seq<PlantUmlBlock>, input: seq<string>, n: nat, m: nat)
    requires n <= m <= |input| && Run(blocks, input, n).error.Some?
    ensures Run(blocks, input, m) == Run(blocks, input, n)
    decreases m - n
  {
    if n < m {
      RunErrorPersists(blocks, input, n + 1, m);
    }
  }
}
