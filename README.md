# Console exercises: rock-paper-scissors, markdown editor, arithmetic quiz

A Dafny model of the deterministic core of three small interactive Python
scripts:

- **Rock-paper-scissors** (`module RockPaperScissors`, `rock_paper_scissors.dfy`).
  The player may supply their own list of options. Option *i* then beats the
  next `len(options) // 2` options, counting cyclically. One round scores 100
  (win), 50 (draw) or 0 (loss). The starting rating is looked up by name. A
  command loop (`!exit`, `!rules`, `!rating`, an option, anything else) adds
  the score of every round to the rating. The model proves the following:
  - every rules entry has `n // 2` options in cyclic order;
  - the keys are exactly the options, and for a repeated option the entry
    written last wins;
  - with distinct options no option beats itself;
  - with an odd number of distinct options, of two different options exactly
    one beats the other, so the two sides' points always add up to 100;
  - with an even number, some pairs beat each other;
  - the rating never decreases, and nothing after `!exit` is read.

  A lemma also records that generating rules from `rock,paper,scissors` gives
  the reverse of the built-in default rules.
- **Markdown editor** (`module Markdown`, `markdown.dfy`). One string builder
  per formatter: plain, bold, italic, inline code, link, header, new line,
  ordered and unordered lists. The two validation prompts (header level,
  row count). A command loop that appends to the document until `!done`.
  Each formatter's contract says how its input reads back out of its
  output. The model proves that the list rows come in input order with
  numbers 1, 2, …, that row numbers read back as the numbers they came from,
  that every turn keeps the old document as a prefix, and that `!help` and
  unknown names change nothing.
- **Arithmetic quiz** (`module ArithmeticTest`, `arithmetic_test.dfy`). Covers
  the correct answers of the two levels (`+ - *` on 2..9, squares of 11..29),
  the answer check, the two scoring loops and the level prompt. The model
  proves the answer ranges, that the score is the number of positions
  answered correctly (as a set cardinality), and that the score is full
  exactly when every answer is right and zero exactly when every answer is
  wrong.

`module Wrappers` (`wrappers.dfy`) holds the `Option` type used for answers
that may be non-numeric and for prompts whose answers run out.

Modelling conventions:
- Every `input()` becomes a parameter: a string, or a sequence of answers
  for a loop.
- A numeric prompt's answers are `seq<Option<int>>`, where `None` is an
  answer that is not a number (the `ValueError` path).
- A retry loop returns `None` only when its answers run out before one is
  accepted. The Python script would instead keep waiting for input.
- Every random draw becomes a parameter. This covers the computer's choice,
  the operands and operator, and the hard-level number.
- The options line of rock-paper-scissors is given already split. The empty
  sequence stands for the empty line: a non-empty line always splits into at
  least one piece, so no other line maps to `[]`.

## Model

| member | source | states |
|---|---|---|
| RockPaperScissors.Beats | Rock_paper_scissors/rock_paper_scissors_1.1.py:36 | the list for `options[i]` has `len(options) // 2` entries, all drawn from the options (its order is BeatsShape's, its membership BeatsMembership's) |
| RockPaperScissors.BeatsShape | Rock_paper_scissors/rock_paper_scissors_1.1.py:35-36 | the list for `options[i]` has `len(options) // 2` entries; the k-th is the option k+1 places further on, wrapping past the end |
| RockPaperScissors.BeatsMembership | Rock_paper_scissors/rock_paper_scissors_1.1.py:36 | with distinct options, `options[i]` beats `options[j]` iff j is between 1 and n//2 cyclic steps ahead of i |
| RockPaperScissors.NoSelfBeat | Rock_paper_scissors/rock_paper_scissors_1.1.py:36 | with distinct options, no option is in its own list |
| RockPaperScissors.ExactlyOneBeats | Rock_paper_scissors/rock_paper_scissors_1.1.py:36 | with an odd number of distinct options, of two different options exactly one beats the other |
| RockPaperScissors.EvenCountMutualBeat | Rock_paper_scissors/rock_paper_scissors_1.1.py:36 | with an even number of distinct options, the first and the middle option beat each other |
| RockPaperScissors.RulesUpTo | Rock_paper_scissors/rock_paper_scissors_1.1.py:34-36 | after the first k passes of the loop, the keys are exactly the first k options (the values: RulesUpToLastWins) |
| RockPaperScissors.RulesUpToLastWins | Rock_paper_scissors/rock_paper_scissors_1.1.py:34-37 | after k passes, an option not written again after index i maps to the list built at index i: a later write overwrites an earlier one |
| RockPaperScissors.GeneratedRules | Rock_paper_scissors/rock_paper_scissors_1.1.py:32-37 | the keys of the generated rules are exactly the supplied options |
| RockPaperScissors.GameRules | Rock_paper_scissors/rock_paper_scissors_1.1.py:48-49 | an empty options line plays the default rules; otherwise the keys are exactly the supplied options |
| RockPaperScissors.GenerateRules | Rock_paper_scissors/rock_paper_scissors_1.1.py:32-37 | the loop writes one entry per index in index order; the result is the generated rules and its keys are exactly the options |
| RockPaperScissors.GeneratedLastWins | Rock_paper_scissors/rock_paper_scissors_1.1.py:34-37 | for an option repeated in the list, its entry is the list built at its last index |
| RockPaperScissors.GeneratedEntryLength | Rock_paper_scissors/rock_paper_scissors_1.1.py:36 | every generated entry has `len(options) // 2` options, duplicates or not |
| RockPaperScissors.GeneratedEntry | Rock_paper_scissors/rock_paper_scissors_1.1.py:34-37 | with distinct options, each key's entry is the list built at that key's index |
| RockPaperScissors.GeneratedNoSelfBeat | Rock_paper_scissors/rock_paper_scissors_1.1.py:34-37 | with distinct options, no key of the generated rules beats itself |
| RockPaperScissors.GeneratedExactlyOneBeats | Rock_paper_scissors/rock_paper_scissors_1.1.py:34-37 | with an odd number of distinct options, of two different keys exactly one is in the other's list |
| RockPaperScissors.DuplicateOptionBeatsItself | Rock_paper_scissors/rock_paper_scissors_1.1.py:34-37 | with a repeated option (`a,b,a`) an option can beat itself, so distinctness is needed above |
| RockPaperScissors.ClassicOptionsReverseDefaults | Rock_paper_scissors/rock_paper_scissors_1.1.py:48-49 | rules generated from `rock,paper,scissors` have the default keys, and each pair is the default relation reversed |
| RockPaperScissors.PlayRound | Rock_paper_scissors/rock_paper_scissors_1.1.py:13-25 | 100 iff the computer's choice is in the user's list; 50 iff not and the choices are equal; otherwise 0; always one of 0, 50, 100 |
| RockPaperScissors.RoundIsFair | Rock_paper_scissors/rock_paper_scissors_1.1.py:17-25 | with an odd number of distinct options, the points of (a vs b) and (b vs a) add up to 100 |
| RockPaperScissors.DefaultRoundIsFair | Rock_paper_scissors/rock_paper_scissors_1.1.py:48 | the same holds for the default rules |
| RockPaperScissors.RatingOf | Rock_paper_scissors/rock_paper_scissors_1.1.py:7-11 | the rating is 0 or the points of some line carrying the user's name (which line: RatingOfFirstMatch) |
| RockPaperScissors.RatingOfFirstMatch | Rock_paper_scissors/rock_paper_scissors_1.1.py:7-10 | the rating is the points of the first line whose name is the user's |
| RockPaperScissors.RatingOfNoMatch | Rock_paper_scissors/rock_paper_scissors_1.1.py:11 | with no matching line the rating is 0 |
| RockPaperScissors.GetRating | Rock_paper_scissors/rock_paper_scissors_1.1.py:4-11 | the scan returns the points of the first matching line, or 0 when none matches |
| RockPaperScissors.Classify | Rock_paper_scissors/rock_paper_scissors_1.1.py:53-63 | `!exit`, `!rules` and `!rating` are recognised iff typed; a line is played as a round iff it is an option other than those three, so an option named like a command is never played |
| RockPaperScissors.MenuStep | Rock_paper_scissors/rock_paper_scissors_1.1.py:56-63 | `!rules`, `!rating` and unrecognised lines leave the rating unchanged; an option adds that round's points |
| RockPaperScissors.SessionRating | Rock_paper_scissors/rock_paper_scissors_1.1.py:51-63 | the rating at the end of a session is never below the rating at its start |
| RockPaperScissors.SessionStopsAtExit | Rock_paper_scissors/rock_paper_scissors_1.1.py:53-55 | lines after the first `!exit` have no effect on the rating |
| RockPaperScissors.SessionWithoutRounds | Rock_paper_scissors/rock_paper_scissors_1.1.py:56-63 | a session in which no line is an option ends with the starting rating |
| RockPaperScissors.StartMenu | Rock_paper_scissors/rock_paper_scissors_1.1.py:39-63 | looks up the rating, picks default or generated rules, runs the loop; the final rating is the session's, never below the looked-up one; it exits iff `!exit` was typed |
| Markdown.Plain | Markdown/Markdown1.py:3-6 | plain text is the text as typed |
| Markdown.Bold | Markdown/Markdown1.py:8-11 | `**` + text + `**`: four characters longer, and stripping the two pairs gives the text back |
| Markdown.Italic | Markdown/Markdown1.py:13-16 | `*` + text + `*`, and stripping the two asterisks gives the text back |
| Markdown.InlineCode | Markdown/Markdown1.py:18-21 | a backtick, the text, a backtick; stripping them gives the text back |
| Markdown.Link | Markdown/Markdown1.py:45-49 | `[label](url)`; the label and url are read back at their positions |
| Markdown.NewLine | Markdown/Markdown1.py:41-43 | exactly one line break |
| Markdown.Hashes | Markdown/Markdown1.py:39 | `'#' * n` has length n and is all '#' |
| Markdown.Header | Markdown/Markdown1.py:35-39 | level hashes, a space, the text: the string starts with exactly `level` (1..6) '#' characters, then a space, then the text |
| Markdown.HeaderLevel | Markdown/Markdown1.py:23-33 | returns the first answer that is a number in 1..6; skips non-numeric and out-of-range answers; none only if no answer qualifies |
| Markdown.RowCount | Markdown/Markdown1.py:51-60 | returns the first answer that is a number greater than 0; none only if no answer qualifies |
| Markdown.Decimal | Markdown/Markdown1.py:68 | the row number `f"{i+1}"` is a non-empty string of decimal digits with no leading zero (it starts with `0` only for 0; its value: DecimalRoundTrip) |
| Markdown.DecimalRoundTrip | Markdown/Markdown1.py:68 | a row number's decimal text reads back as that number |
| Markdown.Row | Markdown/Markdown1.py:68 | an unordered row is `* ` then the item; an ordered row is the number's digits, `. `, then the item; each part reads back at its position |
| Markdown.Rows | Markdown/Markdown1.py:66-68 | the rows of a list take at least three characters per item (a line break and a marker each); their order is RowsSplit's and RowAt's |
| Markdown.RowsSplit | Markdown/Markdown1.py:66-68 | the rows of a list are the rows of any prefix followed by the rows of the rest, numbering continued |
| Markdown.RowAt | Markdown/Markdown1.py:66-68 | rows appear in input order: item k's row carries number k+1, after the rows of items before it |
| Markdown.RowsAppend | Markdown/Markdown1.py:66-68 | one more item adds its row, numbered after the others, at the end |
| Markdown.CreateList | Markdown/Markdown1.py:62-70 | the result is, for k = 1..count, a line break then `k. item` (ordered) or `* item` (unordered), then a final line break |
| Markdown.Apply | Markdown/Markdown1.py:76-99 | one turn keeps the old document as a prefix and appends exactly that formatter's piece: the text, bold, italic, inline code, link, header (`Header`'s `level` hashes, a space and the text), the list's rows plus a line break, or a single line break; `!help` and unknown names append nothing |
| Markdown.Render | Markdown/Markdown1.py:76-107 | a session only ever extends the starting document |
| Markdown.RenderStopsAtDone | Markdown/Markdown1.py:100-103 | turns after the first `!done` do not reach the document |
| Markdown.RenderGrows | Markdown/Markdown1.py:76-99 | the document after the first k turns is a prefix of the final document |
| Markdown.Editor | Markdown/Markdown1.py:72-107 | the loop (lists built by CreateList, the other formatters by Apply) builds the session's document from empty; it ends with a save iff `!done` was typed |
| ArithmeticTest.SimpleAnswer | arithmetic_test/arithmetic_test.py:39-52 | with operands in 2..9 the correct answer lies in 4..18 for `+`, -7..7 for `-`, 4..81 for `*`, so in -7..81 |
| ArithmeticTest.SimpleAnswers | arithmetic_test/arithmetic_test.py:38-52 | one correct answer per task, each in -7..81 when the operands are in range |
| ArithmeticTest.HardAnswer | arithmetic_test/arithmetic_test.py:63-67 | the square is non-negative, and lies in 121..841 for a number in 11..29 |
| ArithmeticTest.HardAnswers | arithmetic_test/arithmetic_test.py:62-67 | one correct answer per number, each in 121..841 when the number is in range |
| ArithmeticTest.CheckAnswer | arithmetic_test/arithmetic_test.py:16-23 | true iff the user's answer equals the correct one |
| ArithmeticTest.Matches | arithmetic_test/arithmetic_test.py:54 | the count of right answers never exceeds the number of tasks |
| ArithmeticTest.MatchesCountsRightAnswers | arithmetic_test/arithmetic_test.py:33-56 | the score equals the number of positions where the answer is right |
| ArithmeticTest.FullMarks | arithmetic_test/arithmetic_test.py:33-56 | the score is the number of tasks iff every answer is right |
| ArithmeticTest.ZeroMarks | arithmetic_test/arithmetic_test.py:33-56 | the score is 0 iff every answer is wrong |
| ArithmeticTest.SimpleTest | arithmetic_test/arithmetic_test.py:33-56 | the loop's score counts the right answers to the simple tasks; `0 <= score <= tasks` |
| ArithmeticTest.HardTest | arithmetic_test/arithmetic_test.py:58-70 | the loop's score counts the right squares; `0 <= score <= tasks` |
| ArithmeticTest.GetChoice | arithmetic_test/arithmetic_test.py:4-14 | returns the first numeric answer that is among the valid choices; none only if no answer qualifies |
| ArithmeticTest.Quiz | arithmetic_test/arithmetic_test.py:78-88 | the level played is the first answer that is 1 or 2; the score is that level's test score, at most 5; no outcome only if no valid level is ever given |

## Left out

- Console output (`print`): the round messages, `display_rules`, the rating
  message, `!help`'s listing and the document printed after every markdown
  turn. None of these affects state.
- File I/O. Reading `rating.txt` is replaced by already-split
  `(name, points)` lines. Writing `output.md` is replaced by the `done`
  result of `Editor`. Writing `results.txt`, and the yes/no and name prompts
  around it, are not modelled.
- Parsing. `line.split()` on rating lines (and the crash on a malformed
  line), `int(...)` on answers, and `options.split(",")` are not modelled:
  their results are parameters.
- `get_answer` in the quiz is not modelled: answers arrive as integers.
- Randomness (`random.choice`, `randint`): the draws are parameters.
  `StartMenu` requires each computer choice to be a key of the rules, as
  `choice(list(game_rules.keys()))` guarantees. The range predicates
  `InSimpleRange` and `InHardRange` state the draws' ranges where the
  bounds depend on them.
- End of input. The Python loops wait for more input, or fail at end of
  file. The model stops when the given answers or lines run out: a
  validation loop then returns `None`, and the command loops end with
  `exited` / `done` false.
- Markdown.Editor: a turn takes its header level and list rows as already
  validated. Level has type `Level` (1..6). The rows are the items read
  after `row_count`, and the rows are not required to be non-empty. The
  two prompts themselves are modelled separately, by `HeaderLevel` and
  `RowCount`.
- The credit calculator in the same repository is not part of this model.
