# Jotdown block parser, in Dafny

Jotdown is the small markup language of the `jots` note-taking tool. Its
parser, `parse_jotdown`, turns a whole text buffer into an ordered list of
block elements:

- `Paragraph(text)`
- `TitleOrHeading(text, level)`
- `UnorderedList(items)`
- `OrderedList(items)`
- `Checklist((text, checked) pairs)`

The repository pins the parser's behaviour down through its test suite,
`jotdown/src/tests.rs`. This project is a Dafny implementation of that
parser, with proofs of what the tests promise. It works in
three stages, each a module:

- `JotText` (`jotdown_text.dfy`) holds the character-level helpers:
  - ASCII whitespace trimming;
  - the `#` and digit runs that open a line;
  - decimal markers and their printing;
  - the split of a buffer into physical lines at each line feed.
- `JotLines` (`jotdown_lines.dfy`) is the line classifier. Each line is
  trimmed and then given one role, without looking at its neighbours:
  - blank (whitespace only);
  - heading: `#`×n and a space;
  - checklist item: `- [ ] ` or `- [x] `;
  - unordered item: `- `;
  - ordered item: digits, `. `;
  - paragraph text: anything else.
- `JotBlocks` (`jotdown_blocks.dfy`) is the assembler and the driver `Parse`.
  A state machine (`Idle`, `InParagraph`, `InUnordered`, `InOrdered` with
  the marker it expects next, `InChecklist`) groups the classified lines
  into elements, in order:
  - a line that does not continue the open block closes it;
  - a heading is emitted on its own line;
  - an ordered item whose number is not the expected one starts a new list.

`JotProperties` (`jotdown_properties.dfy`) proves the general laws:

- blank-line runs only separate;
- headings stand alone;
- each list block holds exactly its own items;
- numbering breaks split ordered lists;
- a buffer with no content gives nothing.

`JotExamples` (`jotdown_examples.dfy`) proves every test of the suite
with a non-empty expected output for any texts of the right shape; the
whitespace-only test is an instance of `JotProperties.ParseEmpty`. `JotTests` (`jotdown_tests.dfy`) instantiates
each of those lemmas with the texts the test itself uses.

## Model

| member | source | states |
|---|---|---|
| JotText.Trim | jotdown/src/tests.rs:185-202 | the trimmed line has no whitespace at either end, and it is empty exactly when the line is all whitespace (space, tab, ...) |
| JotText.TrimPadded | jotdown/src/tests.rs:119-128 | trimming a text padded with whitespace gives back exactly that text; the payload after a marker is kept whole |
| JotText.TrimStartSkips | jotdown/src/tests.rs:3-302 | whitespace in front of a text makes no difference to what is kept of it once leading whitespace is dropped |
| JotText.DecimalRoundTrip | jotdown/src/tests.rs:142-161 | reading back the printed number of an ordered item gives the number |
| JotText.SplitLines | jotdown/src/tests.rs:3-46 | a buffer splits into at least one physical line and no line holds a line feed; JoinSplit and SplitJoin show the split loses and invents nothing |
| JotText.SplitAppend | jotdown/src/tests.rs:3-46 | the lines of `a + "\n" + b` are the lines of `a` followed by those of `b` |
| JotText.JoinSplit | jotdown/src/tests.rs:3-46 | gluing the split lines back with line feeds gives the original buffer, so splitting loses nothing |
| JotText.SplitJoin | jotdown/src/tests.rs:3-46 | splitting lines that were glued with line feeds (none of them holding one) gives back those lines |
| JotText.AllSpaceLines | jotdown/src/tests.rs:196-202 | a buffer is all whitespace exactly when each of its lines is |
| JotLines.ClassifyLine | jotdown/src/tests.rs:3-302 | a line is blank exactly when it is all whitespace; every other role carries a non-empty trimmed text, and a heading's level is at least one |
| JotLines.ClassifyText | jotdown/src/tests.rs:48-77 | a trimmed line is a heading exactly when it opens with a `#` run and a space, and is paragraph text exactly when it carries no marker at all |
| JotLines.HeadingOf | jotdown/src/tests.rs:48-69 | a heading-shaped line gives a well-formed heading whose level is exactly the length of its opening `#` run, the character after that run being the space; ClassifyPaddedHeading pins its text as the rest of the line, trimmed |
| JotLines.NumberedOf | jotdown/src/tests.rs:142-161 | a number-shaped line gives a well-formed ordered item whose marker is the value of its opening digit run, which `. ` follows; ClassifyPaddedNumbered pins its text as the rest of the line, trimmed |
| JotLines.DashItemOf | jotdown/src/tests.rs:204-243 | a line opening with `- ` is a checklist item exactly when a box `[ ] ` or `[x] ` follows, checked exactly for `[x]`, and a plain unordered item otherwise |
| JotLines.ClassifyHeading | jotdown/src/tests.rs:48-69 | `#`×n, a space and a text classify as a level-n heading of that text |
| JotLines.ClassifyCheckItem | jotdown/src/tests.rs:204-215 | `- [ ] ` or `- [x] ` and a text classify as a checklist item of that text, checked exactly for `[x]` |
| JotLines.ClassifyBullet | jotdown/src/tests.rs:79-87 | `- ` and a text not opening with a box classify as an unordered item of that text |
| JotLines.ClassifyNumbered | jotdown/src/tests.rs:142-150 | a printed number, `. ` and a text classify as an ordered item with that number and text |
| JotLines.ClassifyPaddedHeading | jotdown/src/tests.rs:119-128 | `#`×n and a space, then a text with any whitespace before and after it, classify as a level-n heading of the text alone |
| JotLines.ClassifyPaddedNumbered | jotdown/src/tests.rs:142-161 | any digit run (leading zeros included) and `. `, then a text with any whitespace before and after it, classify as an ordered item whose marker is the digits' value and whose text is the text alone |
| JotLines.ClassifyPaddedBullet | jotdown/src/tests.rs:79-109 | `- `, then a text with any whitespace before and after it that does not open with a box, classify as an unordered item of the text alone |
| JotLines.ClassifyPaddedCheckItem | jotdown/src/tests.rs:204-215 | `- [ ] ` or `- [x] `, then a text with any whitespace before and after it, classify as a checklist item of the text alone, checked exactly for `[x]` |
| JotLines.ClassifyDigit | jotdown/src/tests.rs:142-150 | a line opening with a digit is an ordered item when it has the `digits. ` shape, and paragraph text otherwise |
| JotLines.ClassifyRender | jotdown/src/tests.rs:3-302 | classifying the canonical rendering of any role gives that role back, level, checked flag and number included |
| JotLines.MarkerWithoutSpace | jotdown/src/tests.rs:71-77 | a line opening with `#` or `-` but with no space after the marker is never a heading or list item; it is paragraph text kept whole |
| JotLines.ClassifyIndented | jotdown/src/tests.rs:3-302 | whitespace before a line's marker is ignored: an indented line is classified exactly as the same line without its indentation |
| JotLines.BareMarker | jotdown/src/tests.rs:71-77 | `- `, `# ` and `1. ` alone on a line are paragraph text holding the marker without its space |
| JotLines.BareBox | jotdown/src/tests.rs:204-243 | `- [ ] ` or `- [x] ` alone on a line is an unordered item whose text is the box, not a checklist item |
| JotBlocks.Close | jotdown/src/tests.rs:3-302 | closing gives no element when idle and exactly one otherwise, and that element is not empty |
| JotBlocks.Continues | jotdown/src/tests.rs:79-161 | a line joins the open block exactly when it would open a block of the same kind, and an ordered item only when it carries the number expected next; nothing continues `Idle`, and a blank line or a heading never continues a block |
| JotBlocks.Extend | jotdown/src/tests.rs:142-161 | a block that takes one more line stays well formed |
| JotBlocks.Open | jotdown/src/tests.rs:48-69 | a line read from `Idle` emits an element exactly when it is a heading, and then exactly that heading with its text and level; it leaves the machine idle exactly for a blank line or a heading, and whatever it emits or opens is well formed |
| JotBlocks.Assemble | jotdown/src/tests.rs:3-302 | the state machine emits at most one element per line, plus one for a block already open; AssembleBreak, BlankGap, AssembleEmpty and the `*Run` and `*Block` lemmas state its grouping |
| JotBlocks.AssembleWellFormed | jotdown/src/tests.rs:3-302 | from well-formed lines the assembler never emits an empty element |
| JotBlocks.ClassifyAll | jotdown/src/tests.rs:3-302 | there is one role per line, and every role is well formed |
| JotBlocks.ClassifyAllAt | jotdown/src/tests.rs:3-302 | line `i` of the buffer gets the role its own text gives it, whatever its neighbours |
| JotBlocks.Parse | jotdown/src/tests.rs:196-202 | parsing never fails, and no element it returns is empty |
| JotProperties.AssembleBreak | jotdown/src/tests.rs:48-69 | a blank line or a heading closes whatever is open; the lines before and after it assemble independently, the second part from `Idle` |
| JotProperties.AssembleLeadingBlanks | jotdown/src/tests.rs:37-46 | blank lines read from `Idle` change nothing |
| JotProperties.BlankGap | jotdown/src/tests.rs:245-302 | a run of one or more blank lines between two parts makes the output the two parts assembled on their own, so a blank line always closes the open block |
| JotProperties.AssembleTrailingBlanks | jotdown/src/tests.rs:3-13 | blank lines at the end change nothing |
| JotProperties.AssembleEmpty | jotdown/src/tests.rs:196-202 | the assembler emits nothing exactly when no block was open and every line is blank |
| JotProperties.UnorderedRun | jotdown/src/tests.rs:79-109 | an open unordered list takes every following `- ` item, in order, and the first other line closes it |
| JotProperties.UnorderedBlock | jotdown/src/tests.rs:79-109 | consecutive `- ` items are one unordered list of their texts in source order; the next line that is not such an item closes it with no blank line needed |
| JotProperties.ChecklistRun | jotdown/src/tests.rs:204-215 | an open checklist takes every following box item, in order, and the first other line closes it |
| JotProperties.ChecklistBlock | jotdown/src/tests.rs:204-243 | consecutive box items are one checklist of (text, checked) pairs in source order; a plain `- ` item closes it |
| JotProperties.OrderedRun | jotdown/src/tests.rs:142-161 | an open ordered list takes each item numbered as expected, and the first other line closes it |
| JotProperties.OrderedBlock | jotdown/src/tests.rs:142-161 | items numbered m, m+1, ... are one ordered list of their texts only, the numbers dropped; a line that breaks the numbering closes it |
| JotProperties.ParagraphRun | jotdown/src/tests.rs:3-46 | an open paragraph takes every following line of paragraph text, and any marked line closes it |
| JotProperties.ParagraphBlock | jotdown/src/tests.rs:99-109 | consecutive lines of paragraph text are one paragraph, joined by line feeds; any marked line closes it |
| JotProperties.ChecklistThenUnordered | jotdown/src/tests.rs:217-229 | a checklist never takes in the `- ` items after it: the two make two elements |
| JotProperties.UnorderedThenChecklist | jotdown/src/tests.rs:231-243 | an unordered list never takes in the box items after it: the two make two elements |
| JotProperties.OrderedRestart | jotdown/src/tests.rs:152-161 | a number that breaks the sequence (a restart at 1, say) closes the ordered list and opens a second one |
| JotProperties.ClassifyAllAppend | jotdown/src/tests.rs:3-302 | classifying two runs of lines gives the roles of the first then those of the second |
| JotProperties.KindsAppend | jotdown/src/tests.rs:3-302 | the roles of the lines of `a + "\n" + b` are those of `a` then those of `b` |
| JotProperties.BlankKinds | jotdown/src/tests.rs:196-202 | a whitespace-only buffer has at least one line, and every line is blank |
| JotProperties.ParseEmpty | jotdown/src/tests.rs:196-202 | the parse is empty exactly when the buffer holds only whitespace |
| JotProperties.ParseGap | jotdown/src/tests.rs:3-46 | a whitespace-only run of lines between two texts, however long, makes the output the two texts parsed on their own, one after the other |
| JotProperties.ParseLeadingGap | jotdown/src/tests.rs:37-46 | blank lines before the text change nothing |
| JotProperties.ParseTrailingGap | jotdown/src/tests.rs:15-35 | blank lines after the text change nothing, and a missing final line feed makes no difference |
| JotProperties.KindsOfLine | jotdown/src/tests.rs:71-77 | a text with no line feed is one line of one role |
| JotProperties.ParseHeading | jotdown/src/tests.rs:48-69 | a heading line in the middle of a buffer closes what is before it and is emitted alone; what follows is parsed on its own, with no blank line needed |
| JotProperties.ParseHeadingFirst | jotdown/src/tests.rs:48-57 | the same for a heading on the first line |
| JotExamples.ParseParagraphLine | jotdown/src/tests.rs:26-35 | one line of paragraph text is one paragraph |
| JotExamples.ParseNewline | jotdown/src/tests.rs:15-24 | a final line feed changes nothing |
| JotExamples.ParseBlankLine | jotdown/src/tests.rs:26-35 | one empty line splits a buffer into two parts parsed on their own |
| JotExamples.ParseBullets | jotdown/src/tests.rs:79-87 | two `- ` lines are one unordered list of their two texts |
| JotExamples.ParseChecks | jotdown/src/tests.rs:204-215 | a `- [ ] ` line and a `- [x] ` line are one checklist, unchecked then checked |
| JotExamples.ParseNumbers | jotdown/src/tests.rs:142-150 | a `1. ` line and a `2. ` line are one ordered list of their two texts |
| JotExamples.ParseHeadingLine | jotdown/src/tests.rs:59-69 | `#`×n, a space and a text are one heading of level n |
| JotExamples.ParseHeadingThen | jotdown/src/tests.rs:48-57 | a heading line is emitted alone, and the rest of the buffer is parsed on its own |
| JotExamples.ParseUnmarkedLine | jotdown/src/tests.rs:111-117 | a line opening with `#` or `-` but with no space after the marker parses as one paragraph holding the whole line |
| JotExamples.ParseBlockPair | jotdown/src/tests.rs:245-302 | two parts separated by one empty line, with a final line feed, parse on their own, one after the other |
| JotExamples.ParagraphsTwoNewlinesEnd | jotdown/src/tests.rs:3-13 | three paragraphs separated by empty lines and followed by two line feeds are three paragraphs |
| JotExamples.ParagraphsNoEnd | jotdown/src/tests.rs:15-24 | two paragraphs with one final line feed are two paragraphs |
| JotExamples.ParagraphUnterminated | jotdown/src/tests.rs:26-35 | two paragraphs with no final line feed are two paragraphs |
| JotExamples.ParagraphAfterNewlines | jotdown/src/tests.rs:37-46 | empty lines before the first paragraph are skipped |
| JotExamples.HeadingThenParagraph | jotdown/src/tests.rs:48-57 | a heading and a paragraph on the very next line are two elements |
| JotExamples.Titles | jotdown/src/tests.rs:59-69 | two level-1 headings and a paragraph, separated by runs of empty lines, are three elements |
| JotExamples.UnorderedListTwo | jotdown/src/tests.rs:79-87 | two `- ` items and a final line feed are one unordered list |
| JotExamples.ParagraphAndUnorderedList | jotdown/src/tests.rs:89-98 | a paragraph, an empty line, then two `- ` items are a paragraph and an unordered list |
| JotExamples.UnorderedListAndParagraph | jotdown/src/tests.rs:100-109 | a paragraph line right after the items closes the list with no empty line |
| JotExamples.UnorderedListFar | jotdown/src/tests.rs:130-140 | a list between two paragraphs, all separated by empty lines, is three elements |
| JotExamples.OrderedListTwo | jotdown/src/tests.rs:142-150 | items `1.` and `2.` and a final line feed are one ordered list of the texts |
| JotExamples.TwoOrderedLists | jotdown/src/tests.rs:152-161 | numbering that restarts at 1 starts a second ordered list |
| JotExamples.OrderedListAndParagraph | jotdown/src/tests.rs:163-172 | an ordered list, an empty line and a paragraph are two elements |
| JotExamples.OrderedAndUnorderedLists | jotdown/src/tests.rs:174-183 | an ordered list, an empty line and an unordered list are two elements |
| JotExamples.VeryLongGaps | jotdown/src/tests.rs:185-194 | long runs of empty lines before, between and after two blocks only separate them |
| JotExamples.ChecklistTwo | jotdown/src/tests.rs:204-215 | an unchecked and a checked item are one checklist |
| JotExamples.ChecklistDoesntEatUnordered | jotdown/src/tests.rs:217-229 | box items then `- ` items, with no empty line, are a checklist and an unordered list |
| JotExamples.UnorderedDoesntEatChecklist | jotdown/src/tests.rs:231-243 | `- ` items then box items, with no empty line, are an unordered list and a checklist |
| JotExamples.ChecklistAndParagraph | jotdown/src/tests.rs:245-257 | a checklist, an empty line and a paragraph are two elements |
| JotExamples.ChecklistAndOrderedList | jotdown/src/tests.rs:259-271 | a checklist, an empty line and an ordered list are two elements |
| JotExamples.ChecklistAndUnorderedList | jotdown/src/tests.rs:273-285 | a checklist, an empty line and an unordered list are two elements |
| JotExamples.ChecklistAndChecklist | jotdown/src/tests.rs:287-302 | an empty line between two checklists keeps them apart as two elements |
| JotTests.TestParagraphsTwoNewlinesEnd | jotdown/src/tests.rs:3-13 | the test's input parses to the test's three paragraphs |
| JotTests.TestParagraphsNoEnd | jotdown/src/tests.rs:15-24 | the test's input parses to the test's two paragraphs |
| JotTests.TestParagraphUnterminated | jotdown/src/tests.rs:26-35 | the test's input parses to the test's two paragraphs |
| JotTests.TestParagraphAfterNewlines | jotdown/src/tests.rs:37-46 | the test's input parses to the test's two paragraphs |
| JotTests.TestHeader | jotdown/src/tests.rs:48-57 | the test's input parses to a level-2 heading and a paragraph |
| JotTests.TestTitles | jotdown/src/tests.rs:59-69 | the test's input parses to two level-1 headings around a paragraph |
| JotTests.TestParagraphStartsWithHashtag | jotdown/src/tests.rs:71-77 | `#This is not a header` parses to one paragraph holding the whole line |
| JotTests.TestUnorderedList | jotdown/src/tests.rs:79-87 | the test's input parses to one unordered list of its two items |
| JotTests.TestParagraphAndUnorderedList | jotdown/src/tests.rs:89-98 | the test's input parses to a paragraph and an unordered list |
| JotTests.TestUnorderedListAndParagraph | jotdown/src/tests.rs:100-109 | the test's input parses to an unordered list and a paragraph |
| JotTests.TestParagraphStartsWithDash | jotdown/src/tests.rs:111-117 | `-This is not a list item` parses to one paragraph holding the whole line |
| JotTests.TestBulletInHeader | jotdown/src/tests.rs:119-128 | the heading text keeps its inner ` - `, and the next line is a paragraph |
| JotTests.TestUnorderedListFar | jotdown/src/tests.rs:130-140 | the test's input parses to a paragraph, an unordered list and a paragraph |
| JotTests.TestOrderedList | jotdown/src/tests.rs:142-150 | the test's input parses to one ordered list of its two texts |
| JotTests.TestTwoOrderedLists | jotdown/src/tests.rs:152-161 | the test's input parses to two ordered lists |
| JotTests.TestOrderedListAndParagraph | jotdown/src/tests.rs:163-172 | the test's input parses to an ordered list and a paragraph |
| JotTests.TestOrderedAndUnorderedLists | jotdown/src/tests.rs:174-183 | the test's input parses to an ordered list and an unordered list |
| JotTests.TestVeryLongGaps | jotdown/src/tests.rs:185-194 | the test's input parses to a level-1 heading and a paragraph |
| JotTests.TestNoJotdown | jotdown/src/tests.rs:196-202 | the test's whitespace-and-tab input parses to nothing |
| JotTests.TestChecklist | jotdown/src/tests.rs:204-215 | the test's input parses to one checklist, unchecked then checked |
| JotTests.TestChecklistDoesntEatUnordered | jotdown/src/tests.rs:217-229 | the test's input parses to a checklist and an unordered list |
| JotTests.TestUnorderedDoesntEatChecklist | jotdown/src/tests.rs:231-243 | the test's input parses to an unordered list and a checklist |
| JotTests.TestChecklistAndParagraph | jotdown/src/tests.rs:245-257 | the test's input parses to a checklist and a paragraph |
| JotTests.TestChecklistAndOrderedList | jotdown/src/tests.rs:259-271 | the test's input parses to a checklist and an ordered list |
| JotTests.TestChecklistAndUnorderedList | jotdown/src/tests.rs:273-285 | the test's input parses to a checklist and an unordered list |
| JotTests.TestChecklistAndChecklist | jotdown/src/tests.rs:287-302 | the test's input parses to two checklists |

## Left out

- `jots/src/fs.rs` is not part of this model. It holds asynchronous file-system plumbing: finding the data directory, loading files and notes, sharing strings behind `Arc`. It has no parsing logic.
- The parser's own source file is not part of this model. The model is a Dafny implementation that agrees with every assertion of `jotdown/src/tests.rs`. Where those tests leave a choice open, the model fixes one policy, listed below.
- Parse: the unconsumed remainder that `parse_jotdown` returns beside the elements is not modelled. Every test discards it, and the model parses the whole buffer.
- Parse: it cannot fail, so the `Result` wrapper (the `.unwrap()` in the tests) is not modelled.
- Zero-copy `&str` borrowing from the input is not modelled. Texts are `string` values.
- Line splitting is on `'\n'` only. A `'\r'` before it is trimmed away with the other ASCII whitespace (space, tab, line feed, carriage return, form feed). Unicode whitespace is not trimmed.
- Ordered-item numbers are unbounded naturals. The overflow of whatever fixed-width integer the original parses a marker into is not modelled.
- Several consecutive lines of paragraph text form one paragraph, their trimmed lines joined by a line feed. This is a chosen policy (JotProperties.ParagraphBlock): no test has two such lines in a row. Once an inner line carries leading or trailing whitespace, the joined text is not a slice of the input (`"a \n  b"` gives `"a\nb"`), which a borrowed `&str` payload could not be.
- A marker with no text after it loses its space to trimming, since a line is trimmed before it is classified (JotLines.BareMarker, JotLines.BareBox). `- `, `# ` and `1. ` alone on a line become paragraph text holding the marker without its space. `- [ ] ` or `- [x] ` alone becomes an unordered item whose text is the box (`[ ]` or `[x]`). This is a chosen policy: no test has such a line.
- ClassifyLine: leading whitespace before a marker is ignored (JotLines.ClassifyIndented), so `   - x` is an unordered item and `    # x` a level-1 heading. This is a chosen policy: no test has an indented line, and indentation does not nest lists.
- An ordered list may start at any number. No test starts one at a number other than 1.
- Idempotence is not stated: the parse is a pure function of its input, so parsing the same buffer twice gives the same result trivially.
- Rendering, inline formatting and nested lists are not modelled. None of them appears in the test suite or in the element type.
