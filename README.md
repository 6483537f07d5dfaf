# doxypypyplantuml — a Dafny model of the PlantUML repair filter

doxypypyplantuml sits behind doxypypy in a Doxygen input filter
(`doxypypy -a -c $1 | doxypypyplantuml $1`). doxypypy turns Python docstrings
into `##` comments but mangles embedded PlantUML diagrams. The filter reads the
original Python file, cuts out every PlantUML block (start-tag line through
end-tag line, indentation normalised), then copies doxypypy's output, dropping
each mangled region and printing the next original block, as `#` comments, at
every end-tag line.

The model has three modules:

- `PyStr` (`pystr.dfy`): the Python `str` operations the filter uses
  (`in`, `find`, `rstrip`, `' ' * n`, `s[i:]`), each with a contract saying
  what it computes.
- `PlantUml` (`plantuml.dfy`): the tag predicates; `PlantUmlBlock` as a
  datatype, because a block never changes after construction; its indentation
  normalisation loop and its comment-style output loop as methods; and
  `PlantUmlBlockFinder` as a class holding the file's `lines` and the
  `blocks` found in them. Extraction is specified by `Scan`, a fold over the
  first `n` lines. It is related to two independent descriptions: the latest
  start line before a line (`LastStartBefore`) and the list of end lines
  (`EndLines`).
- `Rewriter` (`rewriter.dfy`): `DoxypypyPlantUml.process_input` as a method
  over a class holding the finder. It is specified by `Run`, the loop state
  (`skip_uml_line`, `uml_block_index`, what was printed, the exception)
  after `n` stream lines. It is related to an independent description: a
  region is open when some start line has no end line after it, and line `i`
  contributes a `Segment` to the output.

Input and output are sequences of lines. The original file is the
`seq<string>` that `readlines` would give. The stream is the `seq<string>`
read from stdin. What is printed is the returned `seq<string>`, one element
per `print` call, without the newline `print` adds. An exception ends the run.
The lines printed before it are kept and returned together with the error.

Behaviours of the code that are easy to misread:

- The indentation of a block is `max(line.find('@'), line.find('\\'))`. When
  both characters occur on the start line, this is the rightmost of the two
  first occurrences, not the leftmost (`IndexOfStartTag`).
- A line with both a start tag and an end tag is a start line only, in both
  loops. So it does not form a one-line block.
- `start` is never cleared after a block is made. Two end lines after one
  start line give two blocks that begin at the same line (`ExtractedBlockAt`).
- `if not start` treats a start on line 0 like no start at all. A file
  in which line 0 is the start line of some end line's block is rejected, at
  that end line or at an earlier unmatched one (`StartOnFirstLineRejected`).
- In the stream, every end line takes the next block, whether or not a region
  is open. It is never passed through (`EndLineStep`).
- A stream that ends inside an open region raises nothing. The lines from the
  region's start line on are lost: the output is what it was before that line
  (`ProcessFailsIff`, `UnterminatedRegionIsDropped`).
- The comment column is the first `#` of the end line. For an end line
  `## @enduml` that column is 0, so the printed lines read `#@startuml`, not
  `# @startuml`.

## Model

| member | source | states |
|---|---|---|
| PyStr.Contains | src/doxypypyplantuml/doxypypyplantuml.py:88 | Python `pat in s`: true exactly when `pat` occurs at some position of `s` |
| PyStr.Find | src/doxypypyplantuml/doxypypyplantuml.py:30 | `s.find(c)`: -1 exactly when `c` is absent, otherwise an index holding `c` with no `c` before it |
| PyStr.RStrip | src/doxypypyplantuml/doxypypyplantuml.py:139 | `rstrip()`: a prefix of the line, not ending in whitespace, with only whitespace cut off |
| PyStr.Spaces | src/doxypypyplantuml/doxypypyplantuml.py:42 | `' ' * n`: n spaces, none when n is negative |
| PyStr.SliceFromIsSuffix | src/doxypypyplantuml/doxypypyplantuml.py:22-23 | `s[i:]`: a suffix of `s`, of length `|s| - i` for i in range, empty past the end, the last `-i` characters for negative i |
| PyStr.ContainsIgnoresTrailingSpace | src/doxypypyplantuml/doxypypyplantuml.py:139-142 | a pattern that does not end in whitespace occurs in a line exactly when it occurs in the right-stripped line |
| PyStr.RStripIdempotent | src/doxypypyplantuml/doxypypyplantuml.py:139 | right-stripping twice equals right-stripping once |
| PlantUml.HasStartTag | src/doxypypyplantuml/doxypypyplantuml.py:78-88 | true exactly when `@startuml` or `\startuml` is a substring of the line |
| PlantUml.HasEndTag | src/doxypypyplantuml/doxypypyplantuml.py:90-100 | true exactly when `@enduml` or `\enduml` is a substring of the line |
| PlantUml.TagsIgnoreTrailingSpace | src/doxypypyplantuml/doxypypyplantuml.py:139-142 | testing the tags on the right-stripped stream line gives the same answers as on the raw line |
| PlantUml.IndexOfStartTag | src/doxypypyplantuml/doxypypyplantuml.py:28-30 | a column of the line, or -1 exactly when neither `@` nor `\` occurs |
| PlantUml.IndexOfStartTagIsRightmost | src/doxypypyplantuml/doxypypyplantuml.py:28-30 | a non-negative column holds the first occurrence of `@` or of `\`, and the first occurrence of each character that occurs lies at or before it (the rightmost of the two) |
| PlantUml.StartTagLineIndent | src/doxypypyplantuml/doxypypyplantuml.py:18-19 | on a line holding a start tag the indentation is a valid column (≥ 0) |
| PlantUml.StripIndent | src/doxypypyplantuml/doxypypyplantuml.py:22-25 | a normalised line is never empty |
| PlantUml.StripIndentRemovesIndent | src/doxypypyplantuml/doxypypyplantuml.py:22-25 | for a non-negative indent the normalised line is the raw line minus its first `indent` characters, or a lone newline when nothing is left |
| PlantUml.BlockOfNormalizes | src/doxypypyplantuml/doxypypyplantuml.py:14-26 | a block has as many lines as its raw lines; each raw line is the first `indent` characters followed by the block line, or the block line is a newline when the raw line is no longer than `indent` |
| PlantUml.GetLinesWithNormalizedIndentation | src/doxypypyplantuml/doxypypyplantuml.py:17-26 | the loop builds exactly the normalised lines of the block |
| PlantUml.DoxypypyStyleShape | src/doxypypyplantuml/doxypypyplantuml.py:40-45 | each printed line is C spaces (C = the end line's first `#` column, 0 when it has none), a `#` in the same column as the end line's, then the right-stripped block line; it has no trailing whitespace |
| PlantUml.DetectIndentation | src/doxypypyplantuml/doxypypyplantuml.py:44-45 | `_detect_indentation`: the column of the line's first `#`, or -1 exactly when the line has no `#` |
| PlantUml.OutputInDoxypypyStyle | src/doxypypyplantuml/doxypypyplantuml.py:32-42 | the loop prints exactly the rendered block |
| PlantUml.Scan | src/doxypypyplantuml/doxypypyplantuml.py:69-75 | the remembered start line is always an earlier line |
| PlantUml.LastStartBefore | src/doxypypyplantuml/doxypypyplantuml.py:71-72 | the latest start-tag line before a given line, with no start line between; none when no earlier line holds a start tag |
| PlantUml.EndLines | src/doxypypyplantuml/doxypypyplantuml.py:71-74 | exactly the end lines (end tag, no start tag), strictly increasing |
| PlantUml.ScanInvariant | src/doxypypyplantuml/doxypypyplantuml.py:63-76 | after n lines the scan has failed exactly when some end line has no truthy start before it; otherwise `start` is the latest start line and the blocks are those the end lines closed, in order |
| PlantUml.EndsMatchedPointwise | src/doxypypyplantuml/doxypypyplantuml.py:71-75 | the line-by-line matching condition holds exactly when every end line among the first n has a truthy start before it |
| PlantUml.ClosedBlocksCount | src/doxypypyplantuml/doxypypyplantuml.py:73-75 | when every end line is matched, there is one closed block per end line |
| PlantUml.ClosedBlockAt | src/doxypypyplantuml/doxypypyplantuml.py:73-75 | closed block k is the block from the latest start line before the k-th end line through that end line, and that start is truthy |
| PlantUml.ExtractFailsIff | src/doxypypyplantuml/doxypypyplantuml.py:102-110 | extraction fails exactly when an end line has no earlier start line or its latest start is line 0; the error names the first such end line |
| PlantUml.ScanError | src/doxypypyplantuml/doxypypyplantuml.py:109-110 | a failed scan reports the first end line without a truthy start |
| PlantUml.ExtractedBlockCount | src/doxypypyplantuml/doxypypyplantuml.py:69-112 | on success there is exactly one block per end line of the file |
| PlantUml.ExtractedBlockAt | src/doxypypyplantuml/doxypypyplantuml.py:69-112 | on success block k is the normalised lines from the latest start line before the file's k-th end line through that end line, and that start is truthy |
| PlantUml.ExtractedBlockShape | src/doxypypyplantuml/doxypypyplantuml.py:102-112 | every block starts from a start-tag line with a valid indentation and has at least two lines |
| PlantUml.StartOnFirstLineRejected | src/doxypypyplantuml/doxypypyplantuml.py:109-110 | for every file: when line 0 is the latest start line before an end line, extraction fails with the unmatched-tag error, naming that end line or an earlier one |
| PlantUml.ScanErrorPersists | src/doxypypyplantuml/doxypypyplantuml.py:75 | once `_create_block` has raised, later lines change nothing |
| PlantUml.PlantUmlBlockFinder.Read | src/doxypypyplantuml/doxypypyplantuml.py:58-60 | the finder holds the given file lines and no blocks yet (half initialised until `Create` stores the parsed blocks) |
| PlantUml.PlantUmlBlockFinder.Create | src/doxypypyplantuml/doxypypyplantuml.py:58-61 | construction raises exactly when extraction fails, with its error; otherwise the new finder holds the file and the extracted blocks |
| PlantUml.PlantUmlBlockFinder.ParseBlocks | src/doxypypyplantuml/doxypypyplantuml.py:63-76 | the loop returns exactly the extraction result, error included |
| PlantUml.PlantUmlBlockFinder.CreateBlock | src/doxypypyplantuml/doxypypyplantuml.py:102-112 | raises when `start` is falsy (unbound or 0), else returns the normalised block of lines `start..end` |
| PlantUml.PlantUmlBlockFinder.GetPlantUmlBlock | src/doxypypyplantuml/doxypypyplantuml.py:114-120 | looks the index up in the finder's blocks with Python list indexing (`LookupBlock`) |
| PlantUml.LookupBlock | src/doxypypyplantuml/doxypypyplantuml.py:120 | Python list indexing `blocks[index]`: succeeds exactly for `-len <= index < len`, returning a stored block (block `index` for a non-negative index), otherwise the index error |
| Rewriter.Step | src/doxypypyplantuml/doxypypyplantuml.py:139-147 | one loop iteration: after an exception nothing changes; printed lines are kept; the block counter stays or advances by one, and only past a block that exists; a new exception is the index error for the counter, raised only once the counter has run past the blocks |
| Rewriter.Run | src/doxypypyplantuml/doxypypyplantuml.py:136-148 | the loop after n lines: the block counter never exceeds the number of lines read nor the number of blocks |
| Rewriter.OpenAfterStep | src/doxypypyplantuml/doxypypyplantuml.py:140-146 | a region is open after a line exactly when the line is a start line, or it is not an end line and a region was open before |
| Rewriter.RunInvariant | src/doxypypyplantuml/doxypypyplantuml.py:136-148 | after n lines the loop has raised exactly when more end lines were seen than there are blocks, with the index error for the first missing block; otherwise the counter equals the number of end lines, the skip flag is set exactly while a region is open, and the output is the lines' segments in order |
| Rewriter.ProcessFailsIff | src/doxypypyplantuml/doxypypyplantuml.py:114-120 | the rewrite raises exactly when the stream has more end lines than the file has blocks; an unterminated region is no error; on success every end line used one block |
| Rewriter.OutputGrows | src/doxypypyplantuml/doxypypyplantuml.py:138-148 | printed lines are never taken back |
| Rewriter.EndLinesBefore | src/doxypypyplantuml/doxypypyplantuml.py:142-145 | the k-th end line of the stream comes after exactly k end lines |
| Rewriter.EndLineStep | src/doxypypyplantuml/doxypypyplantuml.py:142-146 | at an end line whose block exists, region open or not, the loop prints exactly that block rendered at the line's `#` column |
| Rewriter.EndLineEmitsBlock | src/doxypypyplantuml/doxypypyplantuml.py:142-146 | the k-th end line's rendering of block k appears in the final output right after what was printed for the earlier lines |
| Rewriter.OutputIsRightStripped | src/doxypypyplantuml/doxypypyplantuml.py:139-148 | every printed line has no trailing whitespace |
| Rewriter.TagFreeStreamPassesThrough | src/doxypypyplantuml/doxypypyplantuml.py:138-148 | a stream with no tags comes out line for line, right-stripped, without error |
| Rewriter.TagFreeIdempotent | src/doxypypyplantuml/doxypypyplantuml.py:138-148 | filtering the output of a tag-free stream again gives the same result |
| Rewriter.SubstitutesOriginalBlock | src/doxypypyplantuml/doxypypyplantuml.py:123-148 | end to end: the k-th stream end line is replaced by the file's lines from the latest start before the file's k-th end line through that end line, normalised and rendered at the stream line's `#` column |
| Rewriter.UnterminatedRegionIsDropped | src/doxypypyplantuml/doxypypyplantuml.py:136-148 | for every stream whose last start line is followed by no end line, and a file with enough blocks: no error, still skipping at the end, and the output is exactly what was printed before that start line |
| Rewriter.RunErrorPersists | src/doxypypyplantuml/doxypypyplantuml.py:143 | once `get_plantuml_block` has raised, later lines change nothing |
| Rewriter.DoxypypyPlantUml.constructor | src/doxypypyplantuml/doxypypyplantuml.py:124-125 | the program holds the given block finder |
| Rewriter.DoxypypyPlantUml.Create | src/doxypypyplantuml/doxypypyplantuml.py:124-125 | construction raises exactly when extraction of the file fails; otherwise the program's finder holds the file and its extracted blocks |
| Rewriter.DoxypypyPlantUml.ProcessInput | src/doxypypyplantuml/doxypypyplantuml.py:127-148 | the loop prints exactly what the specification prints and raises exactly what it raises |

## Left out

- The `__main__` block (argument parsing): plumbing only.
- Opening and reading the original file (`open`, `readlines`, UTF-8 decoding, newline translation): the file is given as its list of lines.
- Reading `sys.stdin` and printing to stdout: the stream is given as a list of lines, and the printed lines are returned.
- `PlantUmlBlock.__str__`: a debugging aid. It discards the result of `join`, so it returns only the header and the footer.
- PyStr.RStrip: strips only space, tab, line feed and carriage return. Python's `rstrip()` also strips vertical tab, form feed, the separators `\x1c`-`\x1f`, `\x85` and the Unicode spaces.
- PlantUml.GetLinesWithNormalizedIndentation: requires a non-empty list of lines. The source would raise IndexError on `lines[0]`, but its only caller always passes at least two lines.
- PlantUml.PlantUmlBlockFinder.CreateBlock: requires `start <= end`. Its only caller passes a start line that comes before the end line.
- An end tag before any start tag raises UnboundLocalError in the source, because `start` is unbound. The model reports it as the same unmatched-tag error as a start on line 0.
- `run.py` (test, lint and packaging runner) and the end-to-end test through the external `doxypypy` tool: they only spawn processes.
