# Document structure extraction, modelled in Dafny

`extract_sectionNames.py` reads the paragraphs of a word-processing document
and builds two tables: a flat list of its headings and table/figure
captions, and a level outline. This project models its core: the function
`extract_document_structure` without its document reader and its
spreadsheet writer.

- **Classifier** (`text.dfy`, `captions.dfy`). A paragraph whose stripped
  text is empty is skipped. A paragraph whose style name starts with
  `Heading` is a heading. Its level is `int()` of the last whitespace-separated
  token of the style name. Any other paragraph is a caption when its stripped
  text matches one of `^表\s*\d+`, `^図\s*\d+`, `^Tab\w*\.*\s*\d+`,
  `^Fig\.*\s*\d+` at the start. The four patterns are written as prefix
  matchers. Each is proved equivalent to a declarative statement of what the
  pattern matches.
- **Numbering state machine** (`numbering.dfy`). The state is
  `current_numbers`, `current_headings` (both keyed 1..5) and `current_level`.
  `Step` is one iteration of the paragraph loop and `Run` the whole loop.
  Python exceptions become the `Error` values of a `Result`.
- **The loop as the source runs it** (`extractor.dfy`). Class `Extractor`
  holds the two dictionaries as `map` fields that its methods reassign, plus
  `current_level` and the element list. `get_current_section_number` and the
  two reset loops are `while`/`for` loops. Each method is proved to do what
  `Step` specifies.
- **Level outline** (`outline.dfy`). An array of `max_level` slots is updated
  slot by slot, and a copy of it becomes each row.
- **Whole function** (`structure.dfy`). The paragraphs come in as a
  `seq<Paragraph>`. The two tables go out as values.
- **Worked numbering examples** (`worked_numbers.dfy`). A second definition of
  the numbering works on a plain vector of five counters. A lemma shows it
  agrees with the dictionaries. Concrete heading sequences are then numbered
  through it. A further lemma shows that the headings the whole loop emits
  are numbered as the run of their levels, whatever captions, body text and
  blank paragraphs lie between them.

Behaviour of the code worth knowing:
- A caption before the first heading is an error: `current_level` is still 0,
  and `current_headings[0]` raises `KeyError` (line 76).
- A heading style whose last token is not an integer fails with the
  `ValueError` of `int()` on that token. Here the error `LevelNotAnInteger`
  carries the whole style name; Python's message names only the token.
- When a level is skipped (level 3 right after level 1), the counter of the
  skipped level is zero. A shallower heading zeroed it, or it never moved. So
  it is left out of the number: `1` then `1.1`, never `1.0.1`.
- Levels outside 1..5 (`Heading 0`, `Heading 7`) raise `KeyError`.
- A caption after a level-5 heading has level 6, so the outline can be six
  columns wide.

## Model

| member | source | states |
|---|---|---|
| Text.StripRemovesEnds | extract_sectionNames.py:33 | `strip()` keeps a contiguous slice of the text and removes only whitespace, and only at the two ends |
| Text.StripIdempotent | extract_sectionNames.py:28 | stripping text that is already stripped (as `is_caption` does) changes nothing |
| Text.LastTokenIsLastRun | extract_sectionNames.py:41 | the token parsed as the level is the last maximal run of non-whitespace in the style name, followed only by whitespace |
| Text.Strip | extract_sectionNames.py:33 | the result is no longer than the text, is empty exactly when the text is all whitespace, and otherwise starts and ends with non-whitespace |
| Text.LastToken | extract_sectionNames.py:41 | the token is empty exactly when the style name is all whitespace and contains no whitespace; characterised by Text.LastTokenIsLastRun |
| Text.ParseInt | extract_sectionNames.py:41 | `int()` succeeds exactly on an optional sign followed by digits; the value is that of the digits, negated after '-' |
| Text.NatToString | extract_sectionNames.py:17 | `str()` of a counter is a non-empty string of digits with no leading zero, except for 0 itself; inverse in Text.NatToStringRoundTrip |
| Text.Join | extract_sectionNames.py:18 | a single part joins to itself; definition otherwise, inverse in Text.SplitJoin |
| Text.NatToStringRoundTrip | extract_sectionNames.py:17 | `str()` of a counter reads back through `int()` as that counter |
| Text.SplitJoin | extract_sectionNames.py:18 | splitting a `'.'`-join on `'.'` gives back the parts when no part contains a dot |
| Captions.MarkLabel | extract_sectionNames.py:23-24 | definition (the prefix matcher for the `表` and `図` patterns); characterised by Captions.MarkLabelCorrect |
| Captions.TabLabel | extract_sectionNames.py:25 | definition (the prefix matcher for the `Tab` pattern); characterised by Captions.TabLabelSound and Captions.TabLabelComplete |
| Captions.FigLabel | extract_sectionNames.py:26 | definition (the prefix matcher for the `Fig` pattern); characterised by Captions.FigLabelCorrect |
| Captions.IsCaption | extract_sectionNames.py:20-28 | definition of `is_caption`; characterised by Captions.IsCaptionMatchesPatterns |
| Captions.IsTableCaption | extract_sectionNames.py:69 | definition of the `startswith(('表', 'Tab'))` test; characterised by Captions.CaptionKinds |
| Captions.MarkLabelCorrect | extract_sectionNames.py:23-24 | the `表`/`図` matcher accepts exactly the texts of the form mark, whitespace, digit |
| Captions.TabLabelSound | extract_sectionNames.py:25 | every text the `Tab` matcher accepts is "Tab", word characters, dots, whitespace, then a digit |
| Captions.TabLabelComplete | extract_sectionNames.py:25 | every text of that form is accepted, including a digit inside the word run |
| Captions.TabLabelCorrect | extract_sectionNames.py:25 | the `Tab` matcher accepts a text if and only if the pattern matches it |
| Captions.FigLabelCorrect | extract_sectionNames.py:26 | the `Fig` matcher accepts exactly "Fig", dots, whitespace, then a digit |
| Captions.IsCaptionMatchesPatterns | extract_sectionNames.py:20-28 | `is_caption` holds if and only if one of the four patterns matches at the start of the stripped text |
| Captions.CaptionKinds | extract_sectionNames.py:69 | a caption is a table caption exactly when it matched the `表` or `Tab` pattern; every other caption starts with `図` or `Fig` |
| Captions.TableCaptionExample | extract_sectionNames.py:25 | "Table 1" is a caption |
| Captions.TableDotCaptionExample | extract_sectionNames.py:25 | "Table.1" is a caption |
| Captions.FigCaptionExample | extract_sectionNames.py:26 | "Fig. 2" is a caption |
| Captions.MarkCaptionExamples | extract_sectionNames.py:23-24 | "表3 結果" and "図 1" are captions |
| Captions.FigureWordNotCaption | extract_sectionNames.py:26 | "Figure 2" is not a caption |
| Captions.UnnumberedNotCaption | extract_sectionNames.py:23-25 | "Table" and "表の一覧" are not captions |
| Numbering.Initial | extract_sectionNames.py:10-11 | definition of the two dictionary literals and `current_level = 0` (line 30); Extraction.Extractor.constructor starts in this state |
| Numbering.SectionNumber | extract_sectionNames.py:13-18 | definition of `get_current_section_number`; characterised by Numbering.SectionNumberRoundTrip, Numbering.SectionNumberInjective and Numbering.NonzeroCountersSkipZero; Extraction.Extractor.CurrentSectionNumber computes it with the source's loop |
| Numbering.IsHeadingStyle | extract_sectionNames.py:39 | definition of the `startswith('Heading')` test; characterised by Numbering.HeadingStyleOutcomes |
| Numbering.Reset | extract_sectionNames.py:47-56 | definition of the two reset loops (lines 47-48 and 55-56); Extraction.Extractor.ZeroDeeperCounters and Extraction.Extractor.ClearDeeperHeadings are proved equal to it; its effect is stated in Numbering.OnHeadingShape |
| Numbering.Kind.Label | extract_sectionNames.py:58-69 | definition of the `type` column; Numbering.CaptionElement states a caption's label is `表` exactly when the `表`/`Tab` test holds and `図` otherwise, and Numbering.HeadingStyleOutcomes that a heading's label is `heading` |
| Numbering.HeadingLevel | extract_sectionNames.py:41 | definition: `int()` of the last token of the style name; characterised by the contracts of Text.ParseInt and Text.LastToken and by Numbering.HeadingStyleOutcomes |
| Numbering.OnCaption | extract_sectionNames.py:69-77 | definition of the caption element; characterised by Numbering.CaptionElement and Numbering.CaptionParentIsCurrentHeading |
| Numbering.NonzeroCounters | extract_sectionNames.py:13-18 | the counters collected for a number are all positive, at most one per level, and the level's own counter comes last when it is set |
| Numbering.OnHeading | extract_sectionNames.py:42-65 | a heading leaves both dictionaries keyed exactly by 1..5 |
| Numbering.Step | extract_sectionNames.py:32-80 | a successful iteration leaves both dictionaries keyed by 1..5 and the current level 0 or in 1..5 |
| Numbering.Run | extract_sectionNames.py:32-80 | every state the loop reaches has both dictionaries keyed by 1..5 |
| Numbering.Extract | extract_sectionNames.py:32-80 | definition: the element list of Numbering.Run, or its error |
| Numbering.StepOnHeading | extract_sectionNames.py:39-65 | a non-blank paragraph with a heading style and a level in 1..5 is handled as a heading with its stripped text |
| Numbering.HeadingUpdatesCounters | extract_sectionNames.py:42-48 | a heading at level L adds exactly 1 to counter L, zeroes counters L+1..5, keeps counters 1..L-1 and makes L the current level |
| Numbering.HeadingRecordsFullText | extract_sectionNames.py:50-64 | the heading's full text is its number, a space and its stripped text; it becomes the remembered heading of level L; deeper ones are cleared and shallower ones kept; its parent is the remembered heading of level L-1, or empty at level 1 |
| Numbering.HeadingNumberEndsWithOwnCounter | extract_sectionNames.py:45-50 | a heading's number is never empty and ends with its own bumped counter |
| Numbering.NonzeroCountersOfFullPath | extract_sectionNames.py:13-18 | when no level in 1..L is zero, the number lists every counter of levels 1..L in order |
| Numbering.NonzeroCountersSkipZero | extract_sectionNames.py:16 | a level whose counter is zero adds nothing to the number |
| Numbering.NonzeroCountersFrame | extract_sectionNames.py:15-17 | the number of level L depends only on the counters of levels 1..L |
| Numbering.ParseNumerals | extract_sectionNames.py:17 | parsing the numerals of a counter list gives the list back |
| Numbering.SectionNumberRoundTrip | extract_sectionNames.py:13-18 | splitting a section number on '.' and parsing each part gives back exactly its nonzero counters |
| Numbering.SectionNumberInjective | extract_sectionNames.py:13-18 | different nonzero counter lists never print as the same section number |
| Numbering.BlankParagraphIgnored | extract_sectionNames.py:33-35 | a paragraph that is all whitespace adds no element and leaves counters, remembered headings and current level unchanged |
| Numbering.BodyTextIgnored | extract_sectionNames.py:67-80 | a paragraph that is neither a heading nor a caption adds no element and changes nothing |
| Numbering.CaptionElement | extract_sectionNames.py:67-77 | a caption before any heading is an error; otherwise its kind and its `type` label (`表` or `図`) follow the `表`/`Tab` test, its level is the current level plus one, its number is empty, its full text is its text, its parent is the current heading, and the state is unchanged |
| Numbering.HeadingStyleOutcomes | extract_sectionNames.py:39-45 | a heading-style paragraph is a heading or an error, never a caption: a non-integer level gives `LevelNotAnInteger`, a level outside 1..5 gives `NoSuchLevel`, and it succeeds exactly for levels 1..5, with an element labelled `heading` |
| Numbering.OnHeadingShape | extract_sectionNames.py:42-64 | what a heading does to each level of the two dictionaries, and its number and full text |
| Numbering.HeadingPreservesConsistent | extract_sectionNames.py:42-64 | a heading keeps the state consistent: deeper levels zero and empty, a remembered heading empty exactly when its counter is zero, each remembered heading starting with its level's number |
| Numbering.StepPreservesConsistent | extract_sectionNames.py:32-80 | every successful iteration keeps the state consistent |
| Numbering.RunConsistent | extract_sectionNames.py:32-80 | every state the loop reaches is consistent |
| Numbering.CaptionParentIsCurrentHeading | extract_sectionNames.py:76 | in a consistent state a caption's parent is non-empty and starts with the current heading's number |
| Numbering.CaptionAfterHeading | extract_sectionNames.py:42-76 | a caption right after a heading sits one level below it and has that heading's full text as its parent |
| Numbering.StepLevels | extract_sectionNames.py:41-72 | a heading element has a level in 1..5 and a caption element a level in 2..6 |
| Numbering.RunLevels | extract_sectionNames.py:32-80 | every element of the flat table has such a level, so every level is at least 1 |
| Numbering.RunErrorPersists | extract_sectionNames.py:32-80 | once a prefix of the paragraphs raises, the whole extraction raises the same error |
| Numbering.RunSnoc | extract_sectionNames.py:32-80 | the loop over one more paragraph is one more iteration on the state reached so far |
| WorkedNumbers.HeadingNumbers | extract_sectionNames.py:42-50 | a run of headings gets one number per heading |
| WorkedNumbers.NonzeroCountersByVector | extract_sectionNames.py:13-18 | the counters collected from the dictionary are the nonzero entries of the counter vector |
| WorkedNumbers.OnHeadingBumps | extract_sectionNames.py:45-48 | on the counter vector a heading bumps its own entry and zeroes the deeper ones |
| WorkedNumbers.HeadingNumbersByVector | extract_sectionNames.py:42-50 | numbering through the dictionaries and numbering on counter vectors give the same numbers for every run of headings |
| WorkedNumbers.SiblingNumbering | extract_sectionNames.py:42-50 | headings at levels 1, 1, 2, 1 are numbered "1", "2", "2.1", "3" |
| WorkedNumbers.NestedNumbering | extract_sectionNames.py:42-50 | headings at levels 1, 2, 3, 1 are numbered "1", "1.1", "1.1.1", "2" |
| WorkedNumbers.SkippedLevelNumbering | extract_sectionNames.py:42-50 | a level-3 heading right after a level-1 heading is numbered "1.1" |
| WorkedNumbers.HeadingStepNumbered | extract_sectionNames.py:39-65 | a heading adds its level to the run of levels read so far and its number, computed on the counter vector, to the numbers emitted |
| WorkedNumbers.OtherStepNumbered | extract_sectionNames.py:33-80 | a blank paragraph, a caption or body text adds no level and no number and leaves the counters as they were |
| WorkedNumbers.RunHeadingsVector | extract_sectionNames.py:32-80 | after any prefix of the document the counters are the vector of the heading levels read so far, and the numbers emitted are their vector numbers |
| WorkedNumbers.RunHeadingNumbers | extract_sectionNames.py:32-80 | the heading numbers the whole loop emits are the numbers of the run of their levels, whatever else lies between the headings |
| WorkedNumbers.SiblingDocument | extract_sectionNames.py:32-80 | any document whose headings have levels 1, 1, 2, 1 numbers them "1", "2", "2.1", "3" |
| Outline.Blank | extract_sectionNames.py:88 | `[''] * max_level`: `width` slots, all empty |
| Outline.MaxLevel | extract_sectionNames.py:86 | `max_level` is at least every element's level and is the level of some element |
| Outline.BuildOutline | extract_sectionNames.py:86-101 | an empty element list is the `NoElements` error; otherwise there is one row per element, each `max_level` wide, holding the element's full text at its level, empty slots deeper, and the previous row's slots shallower |
| Outline.OutlineSlotIsOpenElement | extract_sectionNames.py:90-101 | a non-empty slot of a row holds the full text of the latest element at that level, and every element after it up to that row is deeper |
| Outline.OpenElementStaysInSlot | extract_sectionNames.py:90-101 | an element stays in its slot for as long as every later element is deeper |
| Extraction.Extractor.constructor | extract_sectionNames.py:7-30 | the loop starts with both dictionaries keyed 1..5 at 0 and '', current level 0 and no elements |
| Extraction.Extractor.CurrentSectionNumber | extract_sectionNames.py:13-18 | the loop computes exactly the '.'-join of the nonzero counters of levels 1..L |
| Extraction.Extractor.ZeroDeeperCounters | extract_sectionNames.py:47-48 | the reset loop zeroes exactly the counters deeper than L |
| Extraction.Extractor.ClearDeeperHeadings | extract_sectionNames.py:55-56 | the reset loop clears exactly the remembered headings deeper than L |
| Extraction.Extractor.OpenHeading | extract_sectionNames.py:42-65 | the in-place heading branch leaves the fields in the state `OnHeading` gives and appends its element |
| Extraction.Extractor.Process | extract_sectionNames.py:32-80 | one in-place iteration returns the error `Step` gives, or leaves the fields in the state `Step` gives and appends its element, if any |
| Structure.ExtractDocumentStructure | extract_sectionNames.py:5-101 | the first error of the loop is the result; no elements is `NoElements`; otherwise the flat table is the loop's element list and the outline is its outline, between 1 and 6 columns wide |

## Left out

- Reading the document (`Document(docx_path)`, `doc.paragraphs`, lines 6 and 32): it is a foreign library. The model takes the paragraphs as a sequence of (text, style name) pairs.
- Building the pandas tables and writing the Excel file, including the column headers `Level i` and the sheet names (lines 83 and 104-110): these are foreign calls and file output. The flat table is a `seq<Element>` and the outline a `seq<seq<string>>`.
- The command-line entry point with its fixed file names, messages and catch-all handler (lines 113-121): it is I/O plumbing.
- Python's Unicode classes. `\d` is the ASCII digits only. `\w` is ASCII letters, digits and `_`. `int()` accepts an optional sign and ASCII digits, but not `_` separators or non-ASCII digits. Whitespace is exactly the characters `str.isspace()` accepts.
- The payloads of the errors differ from Python's exception messages: `LevelNotAnInteger` carries the whole style name where `int()` names only the token, and `CaptionBeforeHeading` carries the caption text where Python raises `KeyError(0)`. Only the command-line entry point, which is left out, prints these messages.
- Text.LastToken: a blank style name gives an empty token here, where Python raises `IndexError`. It cannot happen, because the token is only taken from style names that start with "Heading".
- Extraction.Extractor.Process: after an error, the fields are not specified. The source has already set `current_level` to the bad level when the `KeyError` for a level outside 1..5 is raised. The extraction stops at that point either way.
- Numbering.Step: states only that the dictionaries keep their keys; what it does to them and the element it yields are stated by the lemmas after it.
