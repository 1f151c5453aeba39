# libsql shell input reader, modelled in Dafny

This project models the input side of the libsql interactive shell
(`libsql-shell/src/input.rs`):

- **Dot-command completion** (`ShellCompleter::complete`). The shell knows ten
  dot-commands, in a fixed order. Completing a line offers every command that
  begins with the text typed so far, in that order. Each candidate uses the
  command as both its display text and its replacement text, and the
  replacement always starts at offset 0.
- **Input accumulation** (`CliReader::read_input`). The reader asks the line
  editor for physical lines until they form one logical input:
  - A line starting with `.`, read while nothing is accumulated, is returned
    at once, untrimmed, as a `DotCommand`.
  - The same line read mid-statement is appended verbatim, and it never ends
    the statement.
  - A line starting with `#` is dropped.
  - Any other line loses its trailing whitespace and is appended with no
    separator. It ends the statement, returned as `Sql`, when the trimmed
    text ends with `;` or is exactly `go` or `/`.
  - The main prompt `libsql> ` is shown exactly while nothing is
    accumulated; otherwise the continuation prompt `   ...> ` is shown.
  - Every line read goes to the history before it is classified.
  - A failed read (end of input, interrupt, terminal error) ends the call
    with that error, and the text accumulated so far is dropped.

Files:

- `strings.dfy` (module `Strings`): `starts_with`, `ends_with` and
  `trim_end` on strings. `IsWhitespace` is the Unicode White_Space set that
  Rust's `char::is_whitespace` uses.
- `completion.dfy` (module `Completion`): the command list. The filter
  function `Matching` specifies the completer. `Complete` is the completer's
  loop, proved against `Matching`. Lemmas cover membership, order, absence
  of duplicates and concrete lines.
- `reader.dfy` (module `Reader`): the `Input` datatype and the prompts.
  - `Classify` is the classification of one line. `Run` and `Read` are the
    reading loop as a function of what the user does. The user's behaviour
    is a sequence of `Event`s: a submitted line, or a failed read.
  - The class `Editor` stands for the line editor. It holds the events
    still to come, the history, and the prompts it has shown.
  - The class `CliReader` holds `ReadInput`. That loop mutates the editor
    and is proved against `Read`: its result, the events it consumes, the
    history it appends and the prompts it shows.
  - Lemmas about `Run` state what a read produces.

Points where a reader of the code might expect something else:

- One might expect the fragments of a statement to be separated by a space
  or a newline. Lines 117 and 123 of `libsql-shell/src/input.rs` append with
  no separator, so the lines `select 1`, `.tables`, `go` give
  `select 1.tablesgo`. The first line keeps its inner space. Nothing is
  inserted before `go`. See `Reader.DotLineExample`.
- One might expect a failed history append to be ignored. Line 114 adds the
  line to the history with `?`, so such a failure ends the read with that
  error before the line is classified. The model's history append cannot
  fail (see "Left out").
- One might expect an unreadable history file to count as an empty
  history. Line 97 loads it with `?`, so a load failure makes
  `CliReader::new` fail. Loading is outside this model (see "Left out").

## Model

| member | source | states |
|---|---|---|
| Strings.TrimEnd | libsql-shell/src/input.rs:122 | The trimmed line is a prefix of the line and is empty or does not end in whitespace. |
| Strings.TrimEndRemovesOnlyWhitespace | libsql-shell/src/input.rs:122 | Every character that trimming removes is whitespace. With `TrimEnd`'s contract, the removed part is the longest whitespace suffix. |
| Strings.TrimEndKeepsNonWhitespaceHead | libsql-shell/src/input.rs:122 | A line whose first character is not whitespace keeps that first character after trimming and never trims to empty. |
| Strings.StartsWithIffConcat | libsql-shell/src/input.rs:41 | `starts_with(s, p)` holds exactly when `s` is `p` followed by some rest. |
| Completion.Complete | libsql-shell/src/input.rs:21-49 | The start offset is 0. There is one pair per command in `Matching(Commands, line)`, in the same order, with display and replacement both equal to the command. |
| Completion.MatchingMembers | libsql-shell/src/input.rs:40-46 | A string is offered exactly when it is one of the commands and begins with the typed line. |
| Completion.MatchingKeepsOrder | libsql-shell/src/input.rs:40-47 | The candidates are a subsequence of the command list, so they keep its order. |
| Completion.MatchingDistinct | libsql-shell/src/input.rs:40-47 | A list without repeats yields candidates without repeats. |
| Completion.CommandsDistinct | libsql-shell/src/input.rs:28-39 | The ten commands are distinct, so for every line no candidate is offered twice. |
| Completion.EmptyLineMatchesAll | libsql-shell/src/input.rs:40-47 | The empty line matches every command of any list, in list order. |
| Completion.EmptyLineOffersAll | libsql-shell/src/input.rs:28-47 | Completing the empty line offers all ten commands in declaration order. |
| Completion.NoCommandStartsWithDotX | libsql-shell/src/input.rs:28-39 | None of the ten commands begins with `.x`. |
| Completion.NoCandidateForDotX | libsql-shell/src/input.rs:28-47 | Completing `.x` offers nothing. |
| Completion.DotHOffersHeadersAndHelp | libsql-shell/src/input.rs:28-47 | Completing `.h` offers exactly `.headers` then `.help`. |
| Reader.HistoryPath | libsql-shell/src/input.rs:95-96 | The history path ends with `.libsql_history` and begins with the home directory. The part before the file name ends with `/`. It is the home directory itself exactly when that already ends with `/`, and otherwise the home directory with one `/` added. Without a home directory it is the bare file name. |
| Reader.PromptFor | libsql-shell/src/input.rs:109-113 | The prompt is the main prompt exactly when the buffer is empty. |
| Reader.Classify | libsql-shell/src/input.rs:115-126 | A line ends the read exactly when it is a dot-line on an empty buffer or a terminating ordinary line. Otherwise the buffer grows by the line's fragment. A dot-command is the line itself, read on an empty buffer. A statement is the buffer plus the line's fragment, ended by an ordinary line. |
| Reader.CommentKeepsBuffer | libsql-shell/src/input.rs:121 | A comment line leaves any buffer unchanged and does not end the read. |
| Reader.Run | libsql-shell/src/input.rs:106-130 | A read makes between 1 and (remaining events + 1) requests. Making one more request than there are events means it ran out of input and failed with end of input. |
| Reader.PromptsFor | libsql-shell/src/input.rs:109-113 | One prompt per request for a line. |
| Reader.Editor.constructor | libsql-shell/src/input.rs:90-97 | The editor starts with the given future events, the loaded history and no prompts shown. |
| Reader.Editor.ReadLine | libsql-shell/src/input.rs:109-113 | Shows the prompt, then returns and consumes the next line or failure. Once no events are left it returns end of input. The history is unchanged. |
| Reader.Editor.AddHistoryEntry | libsql-shell/src/input.rs:114 | Appends the line to the history; nothing else changes. |
| Reader.CliReader.constructor | libsql-shell/src/input.rs:85-104 | The reader keeps the editor and the history path derived from the home directory. |
| Reader.CliReader.ReadInput | libsql-shell/src/input.rs:106-130 | The result is `Read` of the pending events. Exactly the events that read took are consumed. The history gains the lines among them, in read order. The prompts shown are, request by request, the main prompt exactly while nothing was accumulated. |
| Reader.RunContinues | libsql-shell/src/input.rs:108-127 | Every request before the last one of a read got a line. Classified with what had been accumulated before it, that line did not end the read. |
| Reader.RunStopsAtFailure | libsql-shell/src/input.rs:109-113 | If the last request got a failure, the read fails with that failure. |
| Reader.RunStopsAtLine | libsql-shell/src/input.rs:115-129 | If the last request got a line, that line, classified with what had been accumulated before it, ends the read, and the read returns its input. |
| Reader.RunStops | libsql-shell/src/input.rs:108-129 | Both cases of the last request together: a failure is passed on, and a line completes the input. |
| Reader.EndedByLine | libsql-shell/src/input.rs:115-129 | A read that yields an input ended at a line within the events. Classified with everything accumulated before it, that line yields exactly that input. |
| Reader.SqlIsConcatenation | libsql-shell/src/input.rs:115-129 | A returned statement is the in-order, separator-free concatenation of each line's fragment. Ordinary lines are trimmed, mid-statement dot-lines are verbatim, comments add nothing. |
| Reader.SqlEndsAtTerminator | libsql-shell/src/input.rs:122-125 | A statement ends only at an ordinary line whose trimmed text ends with `;` or is `go` or `/`, and the statement ends with that trimmed text. |
| Reader.StopsAtFirstTerminator | libsql-shell/src/input.rs:122-126 | No line before the last one of a read was a terminating ordinary line. |
| Reader.DotCommandAtBoundary | libsql-shell/src/input.rs:115-119 | A returned dot-command is the untrimmed dot-line read while nothing was accumulated. |
| Reader.ReadFailure | libsql-shell/src/input.rs:109-113 | A failed read failed either at the end of input or with the failure the editor reported at its last request. |
| Reader.DotLineOnEmptyBuffer | libsql-shell/src/input.rs:115-119 | A dot-line read first is returned at once, untrimmed, as the dot-command, after one request. |
| Reader.DotLineMidStatement | libsql-shell/src/input.rs:115-117 | A dot-line read mid-statement is appended verbatim, and the read goes on. |
| Reader.CommentsAreInert | libsql-shell/src/input.rs:121 | Removing every comment line from the events does not change the result of a read. |
| Reader.PromptsForAt | libsql-shell/src/input.rs:109-113 | The k-th prompt is chosen by what the first k events accumulated. It is the main prompt exactly when that is empty. |
| Reader.HistoryInReadOrder | libsql-shell/src/input.rs:114 | When the first n events are lines, the history gains exactly those n lines in read order. |
| Reader.RunTakesLines | libsql-shell/src/input.rs:109-113 | Every request before the last one of a read got a line. |
| Reader.ReadTakesOnlyLines | libsql-shell/src/input.rs:108-125 | A read that yields an input took only lines, the last one included. |
| Reader.SuccessfulReadHistory | libsql-shell/src/input.rs:109-114 | After a read that yields an input, the history holds every line it took, in read order. This includes comments and the line that ended the read. |
| Reader.BlankLinesKeepMainPrompt | libsql-shell/src/input.rs:109-113 | Blank, whitespace-only and comment lines accumulate nothing, so the main prompt is shown again. |
| Reader.OneLineStatement | libsql-shell/src/input.rs:122-129 | A terminating ordinary line read first is the whole statement, trimmed, after one request. |
| Reader.TwoLineStatement | libsql-shell/src/input.rs:122-129 | A non-terminating ordinary line followed by a terminating one gives their trimmed texts joined with no separator. |
| Reader.DotLineInsideStatement | libsql-shell/src/input.rs:115-129 | An ordinary line, a dot-line and a terminating line give the first trimmed, the dot-line verbatim and the last trimmed, joined. |
| Reader.UnterminatedStatementAtEnd | libsql-shell/src/input.rs:109-113 | A single unterminated ordinary line followed by the end of input gives end of input after two requests, and no statement. |
| Reader.FailureDiscardsStatement | libsql-shell/src/input.rs:109-113 | A failure after an unfinished line ends the read with that failure, and the typed text is dropped. |
| Reader.OneLineExample | libsql-shell/src/input.rs:122-129 | `select 1;` reads as the statement `select 1;`. |
| Reader.TrailingSpaceLines | libsql-shell/src/input.rs:121-124 | `select ` is ordinary, trims to `select` and does not terminate. `1;` is ordinary, is unchanged by trimming and terminates. |
| Reader.TrailingSpaceExample | libsql-shell/src/input.rs:122-129 | `select ` then `1;` reads as `select1;`. |
| Reader.DotLineLines | libsql-shell/src/input.rs:115-124 | `select 1` does not terminate, `.tables` is a dot-line, and `go` terminates. |
| Reader.DotLineExample | libsql-shell/src/input.rs:115-129 | `select 1`, `.tables`, `go` reads as `select 1.tablesgo`. |
| Reader.IndentedGoExample | libsql-shell/src/input.rs:122-125 | `  go` with leading spaces is not the `go` terminator, so the read continues and then runs out of input. |

## Left out

- The rustyline editor's internals are not part of this model:
  - its `Config` (`history_ignore_space`, circular completion);
  - the `Helper`/`Hinter`/`Validator`/`Highlighter` derives;
  - the `ShellHelper` forwarding wrapper (lines 52-70, 86-94).
  The editor is a queue of user events plus a history and a log of prompts.
- Terminal input is not modelled. The user's keystrokes are a given
  sequence of events. Running out of events reads as end of input.
- Home-directory lookup is not modelled. The home directory is a
  constructor parameter, and the empty string means "none".
- Reader.HistoryPath: paths are strings with the Unix separator `/`.
  `PathBuf::push` (line 96) uses the platform's separator, which is `\`
  on Windows; that platform is not modelled.
- Loading the history file (line 97) is not modelled: the editor is built
  with the entries already loaded. So is its failure path, which makes
  `CliReader::new` fail.
- Writing the history to disk is not modelled.
- Reader.Editor.AddHistoryEntry: it cannot fail, and it records every line.
  In the source, a failed history append (the `?` at line 114) ends the read
  with that error. rustyline's own filtering (lines starting with a space
  under `history_ignore_space`, repeated entries) is not modelled.
- Completion.Complete: the unused cursor position and editor context
  parameters (lines 24-25) are dropped. Its error result never occurs in
  the source, so it is not modelled.
- Strings are sequences of Unicode scalar values. Byte offsets and UTF-8
  encoding are not modelled; the only offset reported is 0.
