/** PlantUML blocks of the original source file: the tag predicates, the
    normalised block (`PlantUmlBlock`), its comment-style rendering, and the
    finder that cuts the file into blocks (`PlantUmlBlockFinder`). */
module PlantUml {
  import opened PyStr

  datatype Option<T> = None | Some(value: T)

  /** The two exceptions the filter can raise. */
  datatype Error =
    | UnmatchedEndTag(line: nat)        // `_create_block` with a falsy `start`
    | BlockIndexOutOfRange(index: int)  // `self._blocks[index]` past the end

  datatype Result<T> = Ok(value: T) | Err(error: Error)

  // ---------------------------------------------------------------------
  // Tags

  /** `line_contains_startuml_tag`: either spelling occurs anywhere in the line. */
  function HasStartTag(line: string): (b: bool)
    ensures b <==> IsSubstring("@startuml", line) || IsSubstring("\\startuml", line)
  {
    Contains(line, "@startuml") || Contains(line, "\\startuml")
  }

  /** `line_contains_enduml_tag`: either spelling occurs anywhere in the line. */
  function HasEndTag(line: string): (b: bool)
    ensures b <==> IsSubstring("@enduml", line) || IsSubstring("\\enduml", line)
  {
    Contains(line, "@enduml") || Contains(line, "\\enduml")
  }

  /** A line that both loops treat as an end tag: the start-tag test comes
      first, so a line holding both tags is a start line only. */
  predicate IsEndLine(line: string) {
    !HasStartTag(line) && HasEndTag(line)
  }

  /** Trailing whitespace never hides or creates a tag. */
  lemma TagsIgnoreTrailingSpace(line: string)
    ensures HasStartTag(RStrip(line)) == HasStartTag(line)
    ensures HasEndTag(RStrip(line)) == HasEndTag(line)
    ensures IsEndLine(RStrip(line)) == IsEndLine(line)
  {
    ContainsIgnoresTrailingSpace(line, "@startuml");
    ContainsIgnoresTrailingSpace(line, "\\startuml");
    ContainsIgnoresTrailingSpace(line, "@enduml");
    ContainsIgnoresTrailingSpace(line, "\\enduml");
  }

  // ---------------------------------------------------------------------
  // PlantUmlBlock

  /** A block: the lines from a start-tag line to an end-tag line, with the
      indentation of the start tag removed. Never changed after creation. */
  datatype PlantUmlBlock = PlantUmlBlock(lines: seq<string>)

  /** `_get_index_of_start_tag`: the larger of the first positions of `@` and
      of `\`, so the rightmost of the two when both occur. */
  function IndexOfStartTag(line: string): (r: int)
    ensures -1 <= r < |line|
    ensures r == -1 <==> '@' !in line && '\\' !in line
  {
    var at, backslash := Find(line, '@'), Find(line, '\\');
    if at < backslash then backslash else at
  }

  /** A non-negative start-tag column is the first occurrence of `@` or of
      `\`, and the first occurrence of each character that occurs lies at
      or before it. */
  lemma IndexOfStartTagIsRightmost(line: string)
    ensures var r := IndexOfStartTag(line);
      (0 <= r ==> line[r] in "@\\") &&
      (0 <= r ==> (line[r] == '@' && '@' !in line[..r]) || (line[r] == '\\' && '\\' !in line[..r])) &&
      ('@' in line ==> '@' in line[..r + 1]) &&
      ('\\' in line ==> '\\' in line[..r + 1])
  {
    var at, backslash := Find(line, '@'), Find(line, '\\');
    var r := IndexOfStartTag(line);
    assert 0 <= at ==> line[..at + 1] == line[..r + 1][..at + 1];
    assert 0 <= backslash ==> line[..backslash + 1] == line[..r + 1][..backslash + 1];
  }

  /** A line holding a start tag gives a real (non-negative) indentation. */
  lemma StartTagLineIndent(line: string)
    requires HasStartTag(line)
    ensures 0 <= IndexOfStartTag(line) < |line|
  {
    IndexOfStartTagIsRightmost(line);
    if IsSubstring("@startuml", line) {
      var i :| OccursAt("@startuml", line, i);
      assert line[i] == "@startuml"[0];
    } else {
      var i :| OccursAt("\\startuml", line, i);
      assert line[i] == "\\startuml"[0];
    }
  }

  /** One normalised line: `line[indent:]` when that is non-empty, else a
      lone newline. */
  function StripIndent(line: string, indent: int): (r: string)
    ensures r != []
  {
    var rest := SliceFrom(line, indent);
    if rest != [] then rest else "\n"
  }

  /** For a non-negative `indent`, a normalised line is the raw line minus
      its first `indent` characters, or a lone newline when nothing is left. */
  lemma StripIndentRemovesIndent(line: string, indent: int)
    requires 0 <= indent
    ensures indent < |line| ==> line == line[..indent] + StripIndent(line, indent)
    ensures |line| <= indent ==> StripIndent(line, indent) == "\n"
  {
    SliceFromIsSuffix(line, indent);
  }

  /** The lines of a block with `indent` characters stripped from each. */
  function NormalizedLines(lines: seq<string>, indent: int): seq<string> {
    seq(|lines|, i requires 0 <= i < |lines| => StripIndent(lines[i], indent))
  }

  /** Normalising one more line appends its normalised form. */
  lemma NormalizedLinesExtend(lines: seq<string>, i: nat, indent: int)
    requires i < |lines|
    ensures NormalizedLines(lines[..i + 1], indent) ==
      NormalizedLines(lines[..i], indent) + [StripIndent(lines[i], indent)]
  {
    assert forall j :: 0 <= j < i ==> lines[..i + 1][j] == lines[..i][j];
  }

  /** The block built from the raw lines `raw` (`PlantUmlBlock(lines)`). */
  function BlockOf(raw: seq<string>): PlantUmlBlock
    requires raw != []
  {
    PlantUmlBlock(NormalizedLines(raw, IndexOfStartTag(raw[0])))
  }

  /** Indentation normalisation: same number of lines; each line is the raw
      line minus its first `indent` characters (indent being the start-tag
      column of the first line), or a lone newline when nothing is left. */
  lemma BlockOfNormalizes(raw: seq<string>)
    requires raw != [] && HasStartTag(raw[0])
    ensures var indent := IndexOfStartTag(raw[0]);
      0 <= indent &&
      |BlockOf(raw).lines| == |raw| &&
      forall i :: 0 <= i < |raw| ==>
        if indent < |raw[i]| then raw[i] == raw[i][..indent] + BlockOf(raw).lines[i]
        else BlockOf(raw).lines[i] == "\n"
  {
    StartTagLineIndent(raw[0]);
    forall i | 0 <= i < |raw| {
      StripIndentRemovesIndent(raw[i], IndexOfStartTag(raw[0]));
    }
  }

  /** `_get_lines_with_normalized_indentation`, the loop of the block's
      constructor. */
  method GetLinesWithNormalizedIndentation(lines: seq<string>) returns (outputLines: seq<string>)
    requires lines != []
    ensures outputLines == BlockOf(lines).lines
  {
    var startumlLine := lines[0];
    var indent := IndexOfStartTag(startumlLine);
    outputLines := [];
    for i := 0 to |lines|
      invariant outputLines == NormalizedLines(lines[..i], indent)
    {
      NormalizedLinesExtend(lines, i, indent);
      var rest := SliceFrom(lines[i], indent);
      if rest != [] {
        outputLines := outputLines + [rest];
      } else {
        outputLines := outputLines + ["\n"];
      }
    }
    assert lines[..|lines|] == lines;
  }

  /** `_detect_indentation`: the column of the first `#` of a stream line,
      -1 when it has none. */
  function DetectIndentation(line: string): (r: int)
    ensures r == -1 <==> '#' !in line
    ensures r != -1 ==> 0 <= r < |line| && line[r] == '#' && '#' !in line[..r]
  {
    Find(line, '#')
  }

  /** One rendered block line: `' ' * indentation + '#' + line.rstrip()`. */
  function DoxypypyLine(indentation: int, line: string): string {
    Spaces(indentation) + "#" + RStrip(line)
  }

  /** The lines `output_in_doxypypy_style` prints for block `b` when the
      stream's end-tag line is `doxypypyLine`. */
  function DoxypypyStyle(b: PlantUmlBlock, doxypypyLine: string): seq<string> {
    seq(|b.lines|, i requires 0 <= i < |b.lines| => DoxypypyLine(DetectIndentation(doxypypyLine), b.lines[i]))
  }

  /** Shape of every rendered line: exactly C spaces, where C is the column
      of the first `#` of the end line (0 when it has none), then `#` (so the
      `#` lines up with the end line's), then the block line right-stripped;
      and the rendered line has no trailing whitespace. */
  lemma DoxypypyStyleShape(b: PlantUmlBlock, doxypypyLine: string, i: int)
    requires 0 <= i < |b.lines|
    ensures var c := if DetectIndentation(doxypypyLine) < 0 then 0 else DetectIndentation(doxypypyLine);
      var r := DoxypypyStyle(b, doxypypyLine)[i];
      |r| == c + 1 + |RStrip(b.lines[i])| &&
      (forall j :: 0 <= j < c ==> r[j] == ' ') &&
      r[c] == '#' &&
      (0 <= DetectIndentation(doxypypyLine) ==> doxypypyLine[c] == '#') &&
      r[c + 1..] == RStrip(b.lines[i]) &&
      RStrip(r) == r
  {
    var c := if DetectIndentation(doxypypyLine) < 0 then 0 else DetectIndentation(doxypypyLine);
    var r := DoxypypyStyle(b, doxypypyLine)[i];
    var s := RStrip(b.lines[i]);
    assert r == Spaces(DetectIndentation(doxypypyLine)) + "#" + s;
    assert r[c] == '#';
    assert r[c + 1..] == s;
    assert !IsSpace(r[|r| - 1]) by {
      if s == [] { assert r[|r| - 1] == '#'; } else { assert r[|r| - 1] == s[|s| - 1]; }
    }
  }

  /** `output_in_doxypypy_style`: the lines it prints, in order. */
  method OutputInDoxypypyStyle(b: PlantUmlBlock, doxypypyLine: string) returns (printed: seq<string>)
    ensures printed == DoxypypyStyle(b, doxypypyLine)
  {
    var indentation := DetectIndentation(doxypypyLine);
    printed := [];
    for i := 0 to |b.lines|
      invariant |printed| == i
      invariant forall j :: 0 <= j < i ==> printed[j] == DoxypypyLine(indentation, b.lines[j])
    {
      printed := printed + [Spaces(indentation) + "#" + RStrip(b.lines[i])];
    }
  }

  // ---------------------------------------------------------------------
  // Block extraction, as a specification

  /** Python's `not start` is false: a start line was seen and it is not
      line 0. */
  predicate Truthy(start: Option<nat>) {
    start.Some? && start.value != 0
  }

  /** `_create_block(start, end)`: the raw lines `start..end` inclusive as a
      block, or the unmatched-tag error when `start` is falsy. */
  function CreatedBlock(lines: seq<string>, start: Option<nat>, end: nat): Result<PlantUmlBlock>
    requires end < |lines| && (start.Some? ==> start.value <= end)
  {
    if !Truthy(start) then Err(UnmatchedEndTag(end))
    else Ok(BlockOf(lines[start.value..end + 1]))
  }

  /** The loop state of `parse_plantuml_blocks`: the last start line seen
      (None while `start` is still unbound) and the blocks so far. */
  datatype ScanState = ScanState(start: Option<nat>, blocks: seq<PlantUmlBlock>)

  /** The state after the first `n` lines, or the error raised among them. */
  function Scan(lines: seq<string>, n: nat): (r: Result<ScanState>)
    requires n <= |lines|
    ensures r.Ok? && r.value.start.Some? ==> r.value.start.value < n
  {
    if n == 0 then Ok(ScanState(None, []))
    else
      match Scan(lines, n - 1)
      case Err(e) => Err(e)
      case Ok(st) =>
        if HasStartTag(lines[n - 1]) then Ok(st.(start := Some(n - 1)))
        else if HasEndTag(lines[n - 1]) then
          match CreatedBlock(lines, st.start, n - 1)
          case Err(e) => Err(e)
          case Ok(b) => Ok(st.(blocks := st.blocks + [b]))
        else Ok(st)
  }

  /** `parse_plantuml_blocks` on the whole file. */
  function ExtractBlocks(lines: seq<string>): Result<seq<PlantUmlBlock>> {
    match Scan(lines, |lines|)
    case Err(e) => Err(e)
    case Ok(st) => Ok(st.blocks)
  }

  // Independent descriptions of what extraction produces.

  /** The latest line before `e` that holds a start tag. */
  function LastStartBefore(lines: seq<string>, e: nat): (r: Option<nat>)
    requires e <= |lines|
    ensures r.Some? ==> r.value < e && HasStartTag(lines[r.value])
    ensures r.Some? ==> forall j :: r.value < j < e ==> !HasStartTag(lines[j])
    ensures r.None? ==> forall j :: 0 <= j < e ==> !HasStartTag(lines[j])
  {
    if e == 0 then None
    else if HasStartTag(lines[e - 1]) then Some(e - 1)
    else LastStartBefore(lines, e - 1)
  }

  /** The indices of the end lines among the first `n` lines, in file order. */
  function EndLines(lines: seq<string>, n: nat): (r: seq<nat>)
    requires n <= |lines|
    ensures forall k :: 0 <= k < |r| ==> r[k] < n && IsEndLine(lines[r[k]])
    ensures forall k, m :: 0 <= k < m < |r| ==> r[k] < r[m]
    ensures forall j :: 0 <= j < n && IsEndLine(lines[j]) ==> j in r
  {
    if n == 0 then []
    else if IsEndLine(lines[n - 1]) then EndLines(lines, n - 1) + [n - 1]
    else EndLines(lines, n - 1)
  }

  /** The block an end line at `e` closes: from the latest earlier start
      line to `e`, inclusive. */
  function BlockClosedAt(lines: seq<string>, e: nat): PlantUmlBlock
    requires e < |lines| && LastStartBefore(lines, e).Some?
  {
    BlockOf(lines[LastStartBefore(lines, e).value..e + 1])
  }

  /** Every end line among the first `n` has a truthy start before it,
      stated line by line (`EndsMatchedPointwise` gives the quantified
      reading). */
  ghost predicate EndsMatched(lines: seq<string>, n: nat)
    requires n <= |lines|
  {
    n == 0 ||
    (EndsMatched(lines, n - 1) && (IsEndLine(lines[n - 1]) ==> Truthy(LastStartBefore(lines, n - 1))))
  }

  /** The blocks closed by the end lines among the first `n` lines, in
      file order (an end line without an earlier start line closes none). */
  ghost function ClosedBlocks(lines: seq<string>, n: nat): seq<PlantUmlBlock>
    requires n <= |lines|
  {
    if n == 0 then []
    else if IsEndLine(lines[n - 1]) && LastStartBefore(lines, n - 1).Some? then
      ClosedBlocks(lines, n - 1) + [BlockClosedAt(lines, n - 1)]
    else ClosedBlocks(lines, n - 1)
  }

  /** `st` is what the first `n` lines should give: `start` is the latest
      start line and the blocks are those the end lines closed. */
  ghost predicate ScanAgrees(lines: seq<string>, n: nat, st: ScanState)
    requires n <= |lines|
  {
    st.start == LastStartBefore(lines, n) && st.blocks == ClosedBlocks(lines, n)
  }

  /** The scan after `n` lines, described without the loop: it fails exactly
      when some end line has no truthy start before it; otherwise `start`
      is the latest start line and the blocks are those the end lines
      closed. */
  lemma {:induction false} ScanInvariant(lines: seq<string>, n: nat)
    requires n <= |lines|
    ensures Scan(lines, n).Ok? <==> EndsMatched(lines, n)
    ensures Scan(lines, n).Ok? ==> ScanAgrees(lines, n, Scan(lines, n).value)
  {
    if n > 0 {
      ScanInvariant(lines, n - 1);
      var line := lines[n - 1];
      if Scan(lines, n - 1).Err? {
        assert !EndsMatched(lines, n - 1);
      } else if HasEndTag(line) && !HasStartTag(line) && !Truthy(Scan(lines, n - 1).value.start) {
        assert IsEndLine(lines[n - 1]);
      }
    }
  }

  /** One closed block per end line, when every end line has a start
      before it. */
  lemma {:induction false} ClosedBlocksCount(lines: seq<string>, n: nat)
    requires n <= |lines| && EndsMatched(lines, n)
    ensures |ClosedBlocks(lines, n)| == |EndLines(lines, n)|
  {
    if n > 0 {
      ClosedBlocksCount(lines, n - 1);
    }
  }

  /** Closed block k is the one the k-th end line closes, and that end
      line has a truthy start before it. */
  lemma {:induction false} ClosedBlockAt(lines: seq<string>, n: nat, k: nat)
    requires n <= |lines| && EndsMatched(lines, n) && k < |EndLines(lines, n)|
    ensures Truthy(LastStartBefore(lines, EndLines(lines, n)[k]))
    ensures k < |ClosedBlocks(lines, n)|
    ensures ClosedBlocks(lines, n)[k] == BlockClosedAt(lines, EndLines(lines, n)[k])
  {
    ClosedBlocksCount(lines, n);
    var prev := EndLines(lines, n - 1);
    if IsEndLine(lines[n - 1]) {
      assert EndLines(lines, n) == prev + [n - 1];
      assert ClosedBlocks(lines, n) == ClosedBlocks(lines, n - 1) + [BlockClosedAt(lines, n - 1)];
      if k < |prev| {
        ClosedBlockAt(lines, n - 1, k);
      }
    } else {
      ClosedBlockAt(lines, n - 1, k);
    }
  }

  /** Extraction fails exactly when an end line has no earlier start line,
      or the latest earlier start line is line 0; the error names the first
      such end line. */
  lemma ExtractFailsIff(lines: seq<string>)
    ensures ExtractBlocks(lines).Err? <==>
      exists e :: 0 <= e < |lines| && IsEndLine(lines[e]) && !Truthy(LastStartBefore(lines, e))
    ensures ExtractBlocks(lines).Err? ==>
      ExtractBlocks(lines).error.UnmatchedEndTag? &&
      ExtractBlocks(lines).error.line < |lines| &&
      FirstUnmatchedEnd(lines, ExtractBlocks(lines).error.line)
  {
    ScanInvariant(lines, |lines|);
    EndsMatchedPointwise(lines, |lines|);
    if ExtractBlocks(lines).Err? {
      ScanError(lines, |lines|);
    }
  }

  /** `e` is the first end line that has no truthy start line before it. */
  ghost predicate FirstUnmatchedEnd(lines: seq<string>, e: nat)
    requires e < |lines|
  {
    IsEndLine(lines[e]) && !Truthy(LastStartBefore(lines, e)) && EndsMatched(lines, e)
  }

  /** `EndsMatched`, read pointwise: every end line among the first `n` has
      a truthy start line before it. */
  lemma {:induction false} EndsMatchedPointwise(lines: seq<string>, n: nat)
    requires n <= |lines|
    ensures EndsMatched(lines, n) <==>
      forall e :: 0 <= e < n && IsEndLine(lines[e]) ==> Truthy(LastStartBefore(lines, e))
  {
    if n > 0 {
      EndsMatchedPointwise(lines, n - 1);
    }
  }

  /** A failed scan names the first end line without a truthy start. */
  lemma {:induction false} ScanError(lines: seq<string>, n: nat)
    requires n <= |lines| && Scan(lines, n).Err?
    ensures Scan(lines, n).error.UnmatchedEndTag?
    ensures Scan(lines, n).error.line < n && FirstUnmatchedEnd(lines, Scan(lines, n).error.line)
  {
    if Scan(lines, n - 1).Err? {
      ScanError(lines, n - 1);
    } else {
      ScanInvariant(lines, n - 1);
      assert Scan(lines, n).error == UnmatchedEndTag(n - 1);
    }
  }

  /** A successful extraction yields one block per end line. */
  lemma ExtractedBlockCount(lines: seq<string>, bs: seq<PlantUmlBlock>)
    requires ExtractBlocks(lines) == Ok(bs)
    ensures |bs| == |EndLines(lines, |lines|)|
  {
    ScanInvariant(lines, |lines|);
    ClosedBlocksCount(lines, |lines|);
  }

  /** Block k of a successful extraction is the normalised run of lines from
      the latest start line before the file's k-th end line through that end
      line. Two end lines after one start line share that start. */
  lemma ExtractedBlockAt(lines: seq<string>, bs: seq<PlantUmlBlock>, k: nat)
    requires ExtractBlocks(lines) == Ok(bs) && k < |EndLines(lines, |lines|)|
    ensures k < |bs|
    ensures var e := EndLines(lines, |lines|)[k];
      Truthy(LastStartBefore(lines, e)) &&
      bs[k] == BlockOf(lines[LastStartBefore(lines, e).value..e + 1])
  {
    ScanInvariant(lines, |lines|);
    ClosedBlockAt(lines, |lines|, k);
  }

  /** Every extracted block has at least two lines and is normalised against
      a start-tag line. */
  lemma ExtractedBlockShape(lines: seq<string>, k: nat)
    requires ExtractBlocks(lines).Ok? && k < |EndLines(lines, |lines|)|
    ensures var ends := EndLines(lines, |lines|);
      k < |ExtractBlocks(lines).value| &&
      LastStartBefore(lines, ends[k]).Some? &&
      var s := LastStartBefore(lines, ends[k]).value;
      HasStartTag(lines[s]) &&
      0 <= IndexOfStartTag(lines[s]) &&
      |ExtractBlocks(lines).value[k].lines| == ends[k] - s + 1 >= 2
  {
    ExtractedBlockAt(lines, ExtractBlocks(lines).value, k);
    var ends := EndLines(lines, |lines|);
    StartTagLineIndent(lines[LastStartBefore(lines, ends[k]).value]);
  }

  /** A block whose start tag is on the very first line of the file is
      rejected, because `start == 0` is falsy: the file raises at that block's
      end line or at an earlier unmatched one. */
  lemma StartOnFirstLineRejected(lines: seq<string>, e: nat)
    requires e < |lines| && IsEndLine(lines[e]) && LastStartBefore(lines, e) == Some(0)
    ensures ExtractBlocks(lines).Err?
    ensures ExtractBlocks(lines).error.UnmatchedEndTag? && ExtractBlocks(lines).error.line <= e
  {
    ExtractFailsIff(lines);
    var first := ExtractBlocks(lines).error.line;
    if e < first {
      EndsMatchedPointwise(lines, first);
    }
  }

  // ---------------------------------------------------------------------
  // PlantUmlBlockFinder

  /** Holds the original file's lines and the blocks found in them. */
  class PlantUmlBlockFinder {
    const lines: seq<string>
    var blocks: seq<PlantUmlBlock>

    /** The finder is consistent: `blocks` is what extraction gives. */
    ghost predicate Valid()
      reads this
    {
      ExtractBlocks(lines) == Ok(blocks)
    }

    /** Reads the file: the finder holds its lines but no blocks yet, so it
        is only half initialised (not yet `Valid()`) until `Create` stores
        the parsed blocks. */
    constructor Read(fileLines: seq<string>)
      ensures lines == fileLines && blocks == []
    {
      lines := fileLines;
      blocks := [];
    }

    /** `PlantUmlBlockFinder(filepath)`: the file's lines are given; the
        constructor raises what `parse_plantuml_blocks` raises. */
    static method Create(fileLines: seq<string>) returns (r: Result<PlantUmlBlockFinder>)
      ensures r.Err? <==> ExtractBlocks(fileLines).Err?
      ensures r.Err? ==> r.error == ExtractBlocks(fileLines).error
      ensures r.Ok? ==> fresh(r.value) && r.value.lines == fileLines && r.value.Valid()
    {
      var finder := new PlantUmlBlockFinder.Read(fileLines);
      var parsed := finder.ParseBlocks();
      if parsed.Err? {
        return Err(parsed.error);
      }
      finder.blocks := parsed.value;
      return Ok(finder);
    }

    /** `parse_plantuml_blocks`: one pass over the lines. */
    method ParseBlocks() returns (r: Result<seq<PlantUmlBlock>>)
      ensures r == ExtractBlocks(lines)
    {
      var found: seq<PlantUmlBlock> := [];
      var start: Option<nat> := None;
      for lineNumber := 0 to |lines|
        invariant Scan(lines, lineNumber) == Ok(ScanState(start, found))
      {
        var line := lines[lineNumber];
        if HasStartTag(line) {
          start := Some(lineNumber);
        } else if HasEndTag(line) {
          var block := CreateBlock(start, lineNumber);
          if block.Err? {
            ScanErrorPersists(lines, lineNumber + 1, |lines|);
            return Err(block.error);
          }
          found := found + [block.value];
        }
      }
      return Ok(found);
    }

    /** `_create_block`. */
    method CreateBlock(start: Option<nat>, end: nat) returns (r: Result<PlantUmlBlock>)
      requires end < |lines| && (start.Some? ==> start.value <= end)
      ensures r == CreatedBlock(lines, start, end)
    {
      if !Truthy(start) {
        return Err(UnmatchedEndTag(end));
      }
      var plantumlLines := lines[start.value..end + 1];
      var normalized := GetLinesWithNormalizedIndentation(plantumlLines);
      return Ok(PlantUmlBlock(normalized));
    }

    /** `get_plantuml_block(index)`: Python list indexing, negative indices
        counting from the end. */
    function GetPlantUmlBlock(index: int): (r: Result<PlantUmlBlock>)
      reads this
      ensures r == LookupBlock(blocks, index)
    {
      LookupBlock(blocks, index)
    }
  }

  /** Python's `blocks[index]`, raising IndexError out of range. */
  function LookupBlock(blocks: seq<PlantUmlBlock>, index: int): (r: Result<PlantUmlBlock>)
    ensures r.Ok? <==> -|blocks| <= index < |blocks|
    ensures r.Ok? ==> r.value in blocks
    ensures 0 <= index < |blocks| ==> r.value == blocks[index]
    ensures r.Err? ==> r.error == BlockIndexOutOfRange(index)
  {
    if 0 <= index < |blocks| then Ok(blocks[index])
    else if -|blocks| <= index < 0 then Ok(blocks[|blocks| + index])
    else Err(BlockIndexOutOfRange(index))
  }

  /** Once the scan has raised, it stays raised. */
  lemma {:induction false} ScanErrorPersists(lines: seq<string>, n: nat, m: nat)
    requires n <= m <= |lines| && Scan(lines, n).Err?
    ensures Scan(lines, m) == Scan(lines, n)
    decreases m - n
  {
    if n < m {
      ScanErrorPersists(lines, n + 1, m);
    }
  }
}
