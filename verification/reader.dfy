/** The shell's input reader (`CliReader`): it reads physical lines from a
    line editor and groups them into one logical input, either a dot-command
    or an SQL statement ended by `;`, `go` or `/`. */
module Reader {
  import opened Strings

  const HistoryFilename: string := ".libsql_history"
  const MainPrompt: string := "libsql> "
  const ContPrompt: string := "   ...> "

  /** One logical input handed to the shell. */
  datatype Input = DotCommand(text: string) | Sql(text: string)

  /** Why the line editor gave no line: end of input (Ctrl-D), an interrupt
      (Ctrl-C), or a terminal error. */
  datatype ReadError = Eof | Interrupted | Io

  datatype Result<T> = Ok(value: T) | Err(error: ReadError)

  /** What the user does at one prompt: submit a line, or make the read fail. */
  datatype Event = Line(text: string) | Fail(error: ReadError)

  /** Path of the history file: the file name pushed onto the home
      directory, or the bare file name when no home directory is known. */
  function HistoryPath(home: string): (path: string)
    ensures EndsWith(path, HistoryFilename)
    ensures home == "" ==> path == HistoryFilename
    ensures StartsWith(path, home)
    ensures home != "" ==>
              var dir := path[..|path| - |HistoryFilename|];
              EndsWith(dir, "/") && (dir == home || dir == home + "/") &&
              (dir == home <==> EndsWith(home, "/"))
  {
    if home == "" then HistoryFilename
    else if EndsWith(home, "/") then home + HistoryFilename
    else home + "/" + HistoryFilename
  }

  // ---------------------------------------------------------------------
  // Classification of one line

  predicate IsDotLine(line: string) { StartsWith(line, ".") }

  predicate IsComment(line: string) { StartsWith(line, "#") }

  /** An ordinary line is SQL text: neither a dot-line nor a comment. */
  predicate IsOrdinary(line: string) { !IsDotLine(line) && !IsComment(line) }

  /** A trimmed ordinary line that completes the statement. */
  predicate Terminates(trimmed: string) {
    EndsWith(trimmed, ";") || trimmed == "go" || trimmed == "/"
  }

  /** The text a line adds to a statement in progress: a dot-line verbatim,
      a comment nothing, an ordinary line without its trailing whitespace. */
  function Fragment(line: string): string {
    if IsDotLine(line) then line
    else if IsComment(line) then ""
    else TrimEnd(line)
  }

  /** What one event adds to the accumulated text: a line its fragment,
      a failed read nothing. */
  function Contribution(e: Event): string {
    if e.Line? then Fragment(e.text) else ""
  }

  /** Whether reading `line` with `buffer` accumulated so far ends the read. */
  predicate EndsRead(buffer: string, line: string) {
    (IsDotLine(line) && buffer == "") || (IsOrdinary(line) && Terminates(TrimEnd(line)))
  }

  /** The prompt shown with `buffer` accumulated so far. */
  function PromptFor(buffer: string): (p: string)
    ensures p == MainPrompt <==> buffer == ""
  {
    if buffer == "" then MainPrompt else ContPrompt
  }

  datatype Step = Emit(input: Input) | Continue(buffer: string)

  /** One turn of the reading loop: the line read with `buffer` accumulated
      either completes an input or extends the buffer. */
  function Classify(buffer: string, line: string): (s: Step)
    ensures s.Emit? <==> EndsRead(buffer, line)
    ensures s.Continue? ==> s.buffer == buffer + Fragment(line)
    ensures s.Emit? && s.input.DotCommand? ==>
              s.input.text == line && buffer == "" && IsDotLine(line)
    ensures s.Emit? && s.input.Sql? ==>
              s.input.text == buffer + Fragment(line) && IsOrdinary(line)
  {
    if IsDotLine(line) then
      if buffer != "" then Continue(buffer + line) else Emit(DotCommand(line))
    else if IsComment(line) then Continue(buffer)
    else
      var trimmed := TrimEnd(line);
      if Terminates(trimmed) then Emit(Sql(buffer + trimmed)) else Continue(buffer + trimmed)
  }

  /** A comment line leaves the buffer as it is, whatever it holds, and
      never ends the read. */
  lemma CommentKeepsBuffer(buffer: string, line: string)
    requires IsComment(line)
    ensures Classify(buffer, line) == Continue(buffer)
  {
    assert !IsDotLine(line) by {
      assert line[..1] == "#";
    }
  }

  // ---------------------------------------------------------------------
  // The reading loop as functions of the user's events

  /** What one read produces, and how many times it asked the editor for a line. */
  datatype Outcome = Outcome(result: Result<Input>, attempts: nat)

  /** The reading loop started at event index `lo` with `buffer` accumulated:
      the reference the reader's method is proved against. Running out of
      events reads as an end of input. */
  function Run(buffer: string, events: seq<Event>, lo: nat): (o: Outcome)
    requires lo <= |events|
    ensures 1 <= o.attempts <= |events| - lo + 1
    ensures o.attempts == |events| - lo + 1 ==> o.result == Err(Eof)
    decreases |events| - lo
  {
    if lo == |events| then Outcome(Err(Eof), 1)
    else
      match events[lo]
      case Fail(e) => Outcome(Err(e), 1)
      case Line(line) =>
        match Classify(buffer, line)
        case Emit(input) => Outcome(Ok(input), 1)
        case Continue(next) =>
          var o := Run(next, events, lo + 1);
          Outcome(o.result, o.attempts + 1)
  }

  /** One call of the reader on the events the user will produce. */
  function Read(events: seq<Event>): Outcome {
    Run("", events, 0)
  }

  /** The text that the events at indices `lo` up to `hi` (exclusive) add, in order. */
  function Accumulated(events: seq<Event>, lo: nat, hi: nat): string
    requires lo <= hi <= |events|
    decreases hi
  {
    if hi == lo then "" else Accumulated(events, lo, hi - 1) + Contribution(events[hi - 1])
  }

  /** The lines among the first `n` events, in order. */
  function LinesOf(events: seq<Event>, n: nat): seq<string>
    requires n <= |events|
  {
    if n == 0 then []
    else LinesOf(events, n - 1) + if events[n - 1].Line? then [events[n - 1].text] else []
  }

  /** The prompts of the first `n` requests for a line, each chosen by
      what the events before it have accumulated. */
  function PromptsFor(events: seq<Event>, n: nat): (ps: seq<string>)
    requires n <= |events| + 1
    ensures |ps| == n
  {
    if n == 0 then [] else PromptsFor(events, n - 1) + [PromptFor(Accumulated(events, 0, n - 1))]
  }

  /** How many events one read takes: all of them when it runs out of lines. */
  function Consumed(events: seq<Event>): (n: nat)
    ensures n <= |events|
  {
    var o := Read(events);
    if o.attempts <= |events| then o.attempts else |events|
  }

  /** The events that are not comment lines. */
  function WithoutComments(events: seq<Event>): seq<Event>
    decreases |events|
  {
    if events == [] then []
    else if events[0].Line? && IsComment(events[0].text) then WithoutComments(events[1..])
    else [events[0]] + WithoutComments(events[1..])
  }

  // ---------------------------------------------------------------------
  // The line editor and the reader

  /** The line editor, seen from the reader: the events the user will
      produce, the history it has recorded, and the prompts it has shown. */
  class Editor {
    var pending: seq<Event>
    var history: seq<string>
    var prompts: seq<string>

    constructor (events: seq<Event>, loaded: seq<string>)
      ensures pending == events && history == loaded && prompts == []
    {
      pending := events;
      history := loaded;
      prompts := [];
    }

    /** Shows `prompt` and returns the next line, or why there is none;
        once the user has nothing more to give, the read is an end of input. */
    method ReadLine(prompt: string) returns (r: Result<string>)
      modifies this
      ensures prompts == old(prompts) + [prompt] && history == old(history)
      ensures old(pending) == [] ==> r == Err(Eof) && pending == []
      ensures old(pending) != [] ==> pending == old(pending)[1..]
      ensures old(pending) != [] && old(pending)[0].Line? ==> r == Ok(old(pending)[0].text)
      ensures old(pending) != [] && old(pending)[0].Fail? ==> r == Err(old(pending)[0].error)
    {
      prompts := prompts + [prompt];
      if pending == [] {
        r := Err(Eof);
      } else {
        r := match pending[0]
          case Line(text) => Ok(text)
          case Fail(e) => Err(e);
        pending := pending[1..];
      }
    }

    /** Records `line` as the newest history entry. */
    method AddHistoryEntry(line: string)
      modifies this
      ensures history == old(history) + [line]
      ensures pending == old(pending) && prompts == old(prompts)
    {
      history := history + [line];
    }
  }

  class CliReader {
    const editor: Editor
    const historyPath: string
    const mainPrompt: string := MainPrompt
    const contPrompt: string := ContPrompt

    constructor (editor: Editor, home: string)
      ensures this.editor == editor && historyPath == HistoryPath(home)
    {
      this.editor := editor;
      historyPath := HistoryPath(home);
    }

    /** Reads lines until they form one logical input. Every line read is
        added to the history first; the main prompt is shown exactly while
        nothing is accumulated; a failed read ends the call with its error. */
    method ReadInput() returns (r: Result<Input>)
      modifies editor
      ensures r == Read(old(editor.pending)).result
      ensures editor.pending == old(editor.pending)[Consumed(old(editor.pending))..]
      ensures editor.history ==
                old(editor.history) + LinesOf(old(editor.pending), Consumed(old(editor.pending)))
      ensures editor.prompts ==
                old(editor.prompts) + PromptsFor(old(editor.pending), Read(old(editor.pending)).attempts)
    {
      ghost var events := editor.pending;
      ghost var history0 := editor.history;
      ghost var prompts0 := editor.prompts;
      ghost var i := 0;
      var accumulated := "";
      while true
        invariant 0 <= i <= |events|
        invariant editor.pending == events[i..]
        invariant accumulated == Accumulated(events, 0, i)
        invariant editor.history == history0 + LinesOf(events, i)
        invariant editor.prompts == prompts0 + PromptsFor(events, i)
        invariant Read(events).result == Run(accumulated, events, i).result
        invariant Read(events).attempts == i + Run(accumulated, events, i).attempts
        decreases |events| - i
      {
        var read := editor.ReadLine(if accumulated == "" then mainPrompt else contPrompt);
        if read.Err? {
          assert Run(accumulated, events, i).attempts == 1;
          StopsAt(events, i, accumulated);
          AppendAssoc(prompts0, PromptsFor(events, i), [PromptFor(accumulated)]);
          return Err(read.error);
        }
        var line := read.value;
        assert events[i] == Line(line);
        editor.AddHistoryEntry(line);
        AppendAssoc(prompts0, PromptsFor(events, i), [PromptFor(accumulated)]);
        AppendAssoc(history0, LinesOf(events, i), [line]);
        // The branches below decide as Classify does on this line.
        ghost var step := Classify(accumulated, line);
        if step.Emit? {
          assert Run(accumulated, events, i).attempts == 1;
          StopsAt(events, i, accumulated);
        } else {
          ContinuesAt(events, i, accumulated);
        }
        if StartsWith(line, ".") {
          if accumulated != "" {
            accumulated := accumulated + line;
          } else {
            return Ok(DotCommand(line));
          }
        } else if !StartsWith(line, "#") {
          var trimmed := TrimEnd(line);
          accumulated := accumulated + trimmed;
          if EndsWith(trimmed, ";") || trimmed == "go" || trimmed == "/" {
            break;
          }
        }
        i := i + 1;
      }
      return Ok(Sql(accumulated));
    }
  }

  /** Appending to a sequence that was itself appended to. */
  lemma AppendAssoc<T>(a: seq<T>, b: seq<T>, c: seq<T>)
    ensures (a + b) + c == a + (b + c)
  {
  }

  /** Bookkeeping for the reader's loop when the request at index `i` ends
      the read: the read took `i + 1` requests and consumed the event at `i`,
      if there was one. */
  lemma StopsAt(events: seq<Event>, i: nat, accumulated: string)
    requires i <= |events| && accumulated == Accumulated(events, 0, i)
    requires Read(events).attempts == i + Run(accumulated, events, i).attempts
    requires Run(accumulated, events, i).attempts == 1
    ensures Read(events).attempts == i + 1
    ensures Consumed(events) == if i < |events| then i + 1 else i
    ensures PromptsFor(events, i + 1) == PromptsFor(events, i) + [PromptFor(accumulated)]
    ensures LinesOf(events, Consumed(events)) ==
              LinesOf(events, i) + if i < |events| && events[i].Line? then [events[i].text] else []
  {
  }

  /** Bookkeeping for the reader's loop when the line at index `i` does not
      end the read: the read resumes at `i + 1` with the line's fragment added. */
  lemma ContinuesAt(events: seq<Event>, i: nat, accumulated: string)
    requires i < |events| && events[i].Line? && accumulated == Accumulated(events, 0, i)
    requires Classify(accumulated, events[i].text).Continue?
    ensures Accumulated(events, 0, i + 1) == Classify(accumulated, events[i].text).buffer
    ensures LinesOf(events, i + 1) == LinesOf(events, i) + [events[i].text]
    ensures PromptsFor(events, i + 1) == PromptsFor(events, i) + [PromptFor(accumulated)]
    ensures Run(accumulated, events, i).result ==
              Run(Accumulated(events, 0, i + 1), events, i + 1).result
    ensures Run(accumulated, events, i).attempts ==
              Run(Accumulated(events, 0, i + 1), events, i + 1).attempts + 1
  {
  }

  // ---------------------------------------------------------------------
  // What a read produces

  /** A read at a line classifies it with the buffer it has. */
  lemma RunOnLine(buffer: string, events: seq<Event>, lo: nat)
    requires lo < |events| && events[lo].Line?
    ensures Classify(buffer, events[lo].text).Emit? ==>
              Run(buffer, events, lo) == Outcome(Ok(Classify(buffer, events[lo].text).input), 1)
    ensures Classify(buffer, events[lo].text).Continue? ==>
              var o := Run(Classify(buffer, events[lo].text).buffer, events, lo + 1);
              Run(buffer, events, lo) == Outcome(o.result, o.attempts + 1)
  {
  }

  /** Accumulating is concatenating: the first event's contribution comes first. */
  lemma {:induction false} AccumulatedFirst(events: seq<Event>, lo: nat, hi: nat)
    requires lo < hi <= |events|
    ensures Accumulated(events, lo, hi) == Contribution(events[lo]) + Accumulated(events, lo + 1, hi)
    decreases hi
  {
    if hi > lo + 1 {
      AccumulatedFirst(events, lo, hi - 1);
      AppendAssoc(Contribution(events[lo]), Accumulated(events, lo + 1, hi - 1), Contribution(events[hi - 1]));
    }
  }

  /** Every request before the last one got a line, and that line, read
      with what had been accumulated before it, did not end the read. */
  lemma {:induction false} RunContinues(buffer: string, events: seq<Event>, lo: nat)
    requires lo <= |events|
    ensures var o := Run(buffer, events, lo);
            forall j :: lo <= j < lo + o.attempts - 1 ==>
              events[j].Line? && Classify(buffer + Accumulated(events, lo, j), events[j].text).Continue?
    decreases |events| - lo
  {
    if lo < |events| && events[lo].Line? {
      var s := Classify(buffer, events[lo].text);
      RunOnLine(buffer, events, lo);
      if s.Continue? {
        RunContinues(s.buffer, events, lo + 1);
        forall j | lo <= j < lo + Run(buffer, events, lo).attempts - 1
          ensures events[j].Line? && Classify(buffer + Accumulated(events, lo, j), events[j].text).Continue?
        {
          if j > lo {
            AccumulatedFirst(events, lo, j);
            AppendAssoc(buffer, Fragment(events[lo].text), Accumulated(events, lo + 1, j));
          } else {
            assert buffer + Accumulated(events, lo, j) == buffer;
          }
        }
      }
    }
  }

  /** When the last request of a read got a failure, the read fails with it. */
  lemma {:induction false} RunStopsAtFailure(buffer: string, events: seq<Event>, lo: nat, last: nat)
    requires lo <= last < |events| && events[last].Fail?
    requires last == lo + Run(buffer, events, lo).attempts - 1
    ensures Run(buffer, events, lo).result == Err(events[last].error)
    decreases |events| - lo
  {
    if events[lo].Line? {
      var s := Classify(buffer, events[lo].text);
      RunOnLine(buffer, events, lo);
      if s.Continue? {
        RunStopsAtFailure(s.buffer, events, lo + 1, last);
      }
    }
  }

  /** When the last request of a read got a line, that line, read with what
      had been accumulated before it, ended the read with the input it
      completes. */
  lemma {:induction false} RunStopsAtLine(buffer: string, events: seq<Event>, lo: nat, last: nat)
    requires lo <= last < |events| && events[last].Line?
    requires last == lo + Run(buffer, events, lo).attempts - 1
    ensures Classify(buffer + Accumulated(events, lo, last), events[last].text).Emit?
    ensures Run(buffer, events, lo).result ==
              Ok(Classify(buffer + Accumulated(events, lo, last), events[last].text).input)
    decreases |events| - lo
  {
    var s := Classify(buffer, events[lo].text);
    RunOnLine(buffer, events, lo);
    if s.Emit? {
      assert Run(buffer, events, lo).attempts == 1 && last == lo;
      assert buffer + Accumulated(events, lo, lo) == buffer;
    } else {
      var o := Run(buffer, events, lo);
      var o' := Run(s.buffer, events, lo + 1);
      assert o.result == o'.result && o.attempts == o'.attempts + 1;
      RunStopsAtLine(s.buffer, events, lo + 1, last);
      AccumulatedFirst(events, lo, last);
      AppendAssoc(buffer, Fragment(events[lo].text), Accumulated(events, lo + 1, last));
      assert buffer + Accumulated(events, lo, last) == s.buffer + Accumulated(events, lo + 1, last);
    }
  }

  /** The last request decides the result: a failure is passed on as it
      is, and a line, read with what had been accumulated before it, ends
      the read with the input it completes. */
  lemma RunStops(buffer: string, events: seq<Event>, lo: nat)
    requires lo <= |events|
    ensures var o := Run(buffer, events, lo);
            var last := lo + o.attempts - 1;
            last < |events| && events[last].Fail? ==> o.result == Err(events[last].error)
    ensures var o := Run(buffer, events, lo);
            var last := lo + o.attempts - 1;
            last < |events| && events[last].Line? ==>
              var s := Classify(buffer + Accumulated(events, lo, last), events[last].text);
              s.Emit? && o.result == Ok(s.input)
  {
    var last := lo + Run(buffer, events, lo).attempts - 1;
    if last < |events| {
      if events[last].Fail? {
        RunStopsAtFailure(buffer, events, lo, last);
      } else {
        RunStopsAtLine(buffer, events, lo, last);
      }
    }
  }

  /** A read that produces an input ended at a line, which completed that
      input given everything accumulated before it. */
  lemma EndedByLine(events: seq<Event>)
    ensures var o := Read(events);
            var n := o.attempts;
            o.result.Ok? ==>
              && n <= |events|
              && events[n - 1].Line?
              && Classify(Accumulated(events, 0, n - 1), events[n - 1].text) == Emit(o.result.value)
  {
    var o := Read(events);
    var n := o.attempts;
    if o.result.Ok? {
      assert n <= |events|;
      if events[n - 1].Fail? {
        RunStopsAtFailure("", events, 0, n - 1);
      } else {
        RunStopsAtLine("", events, 0, n - 1);
        assert "" + Accumulated(events, 0, n - 1) == Accumulated(events, 0, n - 1);
      }
    }
  }

  /** An SQL statement is the in-order concatenation of what each line read
      contributed: ordinary lines trimmed, mid-statement dot-lines verbatim,
      comments nothing. */
  lemma SqlIsConcatenation(events: seq<Event>)
    ensures var o := Read(events);
            o.result.Ok? && o.result.value.Sql? ==>
              o.attempts <= |events| && o.result.value.text == Accumulated(events, 0, o.attempts)
  {
    EndedByLine(events);
  }

  /** A statement ends only at an ordinary line whose trimmed text ends
      with `;` or is `go` or `/`, and that text closes the statement. */
  lemma SqlEndsAtTerminator(events: seq<Event>)
    ensures var o := Read(events);
            var n := o.attempts;
            o.result.Ok? && o.result.value.Sql? ==>
              && n <= |events|
              && events[n - 1].Line?
              && IsOrdinary(events[n - 1].text)
              && Terminates(TrimEnd(events[n - 1].text))
              && EndsWith(o.result.value.text, TrimEnd(events[n - 1].text))
  {
    EndedByLine(events);
    var o := Read(events);
    var n := o.attempts;
    if o.result.Ok? && o.result.value.Sql? {
      var line := events[n - 1].text;
      var stmt := o.result.value.text;
      assert stmt == Accumulated(events, 0, n - 1) + TrimEnd(line);
      assert stmt[|stmt| - |TrimEnd(line)|..] == TrimEnd(line);
    }
  }

  /** No line before the one that ends a read was a terminating ordinary
      line: the read stops at the first one. */
  lemma StopsAtFirstTerminator(events: seq<Event>)
    ensures var n := Read(events).attempts;
            forall j :: 0 <= j < n - 1 ==>
              events[j].Line? && !(IsOrdinary(events[j].text) && Terminates(TrimEnd(events[j].text)))
  {
    RunContinues("", events, 0);
    forall j | 0 <= j < Read(events).attempts - 1
      ensures events[j].Line? && !(IsOrdinary(events[j].text) && Terminates(TrimEnd(events[j].text)))
    {
      assert "" + Accumulated(events, 0, j) == Accumulated(events, 0, j);
    }
  }

  /** A dot-command is a dot-line read while nothing was accumulated,
      returned exactly as read. */
  lemma DotCommandAtBoundary(events: seq<Event>)
    ensures var o := Read(events);
            var n := o.attempts;
            o.result.Ok? && o.result.value.DotCommand? ==>
              && n <= |events|
              && events[n - 1] == Line(o.result.value.text)
              && IsDotLine(o.result.value.text)
              && Accumulated(events, 0, n - 1) == ""
  {
    EndedByLine(events);
  }

  /** A read fails only with the failure the editor reported, or at the end
      of input; whatever was accumulated is then discarded. */
  lemma ReadFailure(buffer: string, events: seq<Event>, lo: nat)
    requires lo <= |events|
    ensures var o := Run(buffer, events, lo);
            var last := lo + o.attempts - 1;
            o.result.Err? ==>
              (last == |events| && o.result.error == Eof) ||
              (last < |events| && events[last] == Fail(o.result.error))
  {
    RunStops(buffer, events, lo);
  }

  /** A dot-line read with nothing accumulated is the whole input. */
  lemma DotLineOnEmptyBuffer(line: string, rest: seq<Event>)
    requires IsDotLine(line)
    ensures Read([Line(line)] + rest) == Outcome(Ok(DotCommand(line)), 1)
  {
  }

  /** A dot-line read mid-statement is appended verbatim and never ends the read. */
  lemma DotLineMidStatement(buffer: string, events: seq<Event>, lo: nat)
    requires lo < |events| && events[lo].Line?
    requires buffer != "" && IsDotLine(events[lo].text)
    ensures var o := Run(buffer + events[lo].text, events, lo + 1);
            Run(buffer, events, lo) == Outcome(o.result, o.attempts + 1)
  {
  }

  /** The read of `xs + ys` from inside `ys` is the read of `ys` alone. */
  lemma {:induction false} RunShift(buffer: string, xs: seq<Event>, ys: seq<Event>, k: nat)
    requires k <= |ys|
    ensures Run(buffer, xs + ys, |xs| + k) == Run(buffer, ys, k)
    decreases |ys| - k
  {
    if k < |ys| {
      assert (xs + ys)[|xs| + k] == ys[k];
      if ys[k].Line? {
        var s := Classify(buffer, ys[k].text);
        if s.Continue? {
          RunShift(s.buffer, xs, ys, k + 1);
        }
      }
    }
  }

  /** Comment lines, wherever they come, do not change what a read returns. */
  lemma {:induction false} CommentsAreInert(buffer: string, events: seq<Event>)
    ensures Run(buffer, events, 0).result == Run(buffer, WithoutComments(events), 0).result
    decreases |events|
  {
    if events != [] {
      var e := events[0];
      var rest := events[1..];
      assert events == [e] + rest;
      if e.Line? {
        var s := Classify(buffer, e.text);
        if IsComment(e.text) {
          RunShift(buffer, [e], rest, 0);
          CommentsAreInert(buffer, rest);
        } else if s.Continue? {
          var kept := WithoutComments(rest);
          assert WithoutComments(events) == [e] + kept;
          RunShift(s.buffer, [e], rest, 0);
          RunShift(s.buffer, [e], kept, 0);
          CommentsAreInert(s.buffer, rest);
        }
      }
    }
  }

  // ---------------------------------------------------------------------
  // Prompts and history

  /** The k-th request shows the prompt chosen by what the events before it
      accumulated: the main prompt exactly when that is nothing. */
  lemma {:induction false} PromptsForAt(events: seq<Event>, n: nat, k: nat)
    requires k < n <= |events| + 1
    ensures PromptsFor(events, n)[k] == PromptFor(Accumulated(events, 0, k))
    ensures PromptsFor(events, n)[k] == MainPrompt <==> Accumulated(events, 0, k) == ""
    decreases n
  {
    var before := PromptsFor(events, n - 1);
    assert PromptsFor(events, n) == before + [PromptFor(Accumulated(events, 0, n - 1))];
    if k < n - 1 {
      PromptsForAt(events, n - 1, k);
      assert PromptsFor(events, n)[k] == before[k];
    }
  }

  /** When every event taken is a line, the history gains exactly those
      lines, one entry per line, in the order they were read. */
  lemma {:induction false} HistoryInReadOrder(events: seq<Event>, n: nat)
    requires n <= |events|
    requires forall j :: 0 <= j < n ==> events[j].Line?
    ensures |LinesOf(events, n)| == n
    ensures forall j :: 0 <= j < n ==> LinesOf(events, n)[j] == events[j].text
    decreases n
  {
    if n > 0 {
      HistoryInReadOrder(events, n - 1);
    }
  }

  /** A read that produces an input took only lines, and every one of them,
      comments and the line that ended the read included, is recorded in
      the history in the order it was read. */
  lemma SuccessfulReadHistory(events: seq<Event>)
    requires Read(events).result.Ok?
    ensures Consumed(events) == Read(events).attempts
    ensures |LinesOf(events, Consumed(events))| == Consumed(events)
    ensures forall j :: 0 <= j < Consumed(events) ==>
              events[j].Line? && LinesOf(events, Consumed(events))[j] == events[j].text
  {
    ReadTakesOnlyLines(events);
    HistoryInReadOrder(events, Consumed(events));
  }

  /** Every request before the last one of a read got a line. */
  lemma {:induction false} RunTakesLines(buffer: string, events: seq<Event>, lo: nat)
    requires lo <= |events|
    ensures forall j :: lo <= j < lo + Run(buffer, events, lo).attempts - 1 ==> events[j].Line?
    decreases |events| - lo
  {
    if lo < |events| && events[lo].Line? {
      var s := Classify(buffer, events[lo].text);
      RunOnLine(buffer, events, lo);
      if s.Continue? {
        RunTakesLines(s.buffer, events, lo + 1);
      }
    }
  }

  /** A read that produces an input took only lines, the last of them included. */
  lemma ReadTakesOnlyLines(events: seq<Event>)
    requires Read(events).result.Ok?
    ensures Read(events).attempts <= |events|
    ensures forall j :: 0 <= j < Read(events).attempts ==> events[j].Line?
  {
    var n := Read(events).attempts;
    EndedByLine(events);
    assert n <= |events| && events[n - 1].Line?;
    RunTakesLines("", events, 0);
    forall j | 0 <= j < n
      ensures events[j].Line?
    {
      if j < n - 1 {
        assert 0 <= j < 0 + n - 1;
      }
    }
  }

  /** Blank lines and comments accumulate nothing, so the main prompt is
      shown again after them. */
  lemma {:induction false} BlankLinesKeepMainPrompt(events: seq<Event>, n: nat)
    requires n <= |events|
    requires forall j :: 0 <= j < n ==>
               events[j].Line? && (IsComment(events[j].text) || TrimEnd(events[j].text) == "")
    ensures Accumulated(events, 0, n) == ""
    ensures PromptFor(Accumulated(events, 0, n)) == MainPrompt
    decreases n
  {
    if n > 0 {
      var last := events[n - 1].text;
      BlankLinesKeepMainPrompt(events, n - 1);
      if last != "" && !IsComment(last) {
        if !IsWhitespace(last[0]) {
          TrimEndKeepsNonWhitespaceHead(last);
        }
        assert !IsDotLine(last);
      }
    }
  }

  // ---------------------------------------------------------------------
  // Examples

  /** A terminating ordinary line read with nothing accumulated is the
      whole statement, without its trailing whitespace. */
  lemma OneLineStatement(events: seq<Event>)
    requires events != [] && events[0].Line?
    requires IsOrdinary(events[0].text) && Terminates(TrimEnd(events[0].text))
    ensures Read(events) == Outcome(Ok(Sql(TrimEnd(events[0].text))), 1)
  {
    assert "" + TrimEnd(events[0].text) == TrimEnd(events[0].text);
  }

  /** Two ordinary lines, the second terminating, form one statement: their
      trimmed texts joined with no separator. */
  lemma TwoLineStatement(events: seq<Event>)
    requires |events| >= 2 && events[0].Line? && events[1].Line?
    requires IsOrdinary(events[0].text) && !Terminates(TrimEnd(events[0].text))
    requires IsOrdinary(events[1].text) && Terminates(TrimEnd(events[1].text))
    ensures Read(events) ==
              Outcome(Ok(Sql(TrimEnd(events[0].text) + TrimEnd(events[1].text))), 2)
  {
    var first := TrimEnd(events[0].text);
    assert "" + first == first;
    RunOnLine("", events, 0);
    RunOnLine(first, events, 1);
  }

  /** A dot-line between two ordinary lines is part of the statement,
      verbatim, once something has been accumulated. */
  lemma DotLineInsideStatement(events: seq<Event>)
    requires |events| >= 3 && events[0].Line? && events[1].Line? && events[2].Line?
    requires IsOrdinary(events[0].text) && !Terminates(TrimEnd(events[0].text))
    requires TrimEnd(events[0].text) != ""
    requires IsDotLine(events[1].text)
    requires IsOrdinary(events[2].text) && Terminates(TrimEnd(events[2].text))
    ensures Read(events) == Outcome(
              Ok(Sql(TrimEnd(events[0].text) + events[1].text + TrimEnd(events[2].text))), 3)
  {
    var first := TrimEnd(events[0].text);
    assert "" + first == first;
    RunOnLine("", events, 0);
    DotLineMidStatement(first, events, 1);
    RunOnLine(first + events[1].text, events, 2);
  }

  /** A statement still open when the input ends yields the end of input
      and no statement. */
  lemma UnterminatedStatementAtEnd(events: seq<Event>)
    requires |events| == 1 && events[0].Line?
    requires IsOrdinary(events[0].text) && !Terminates(TrimEnd(events[0].text))
    ensures Read(events) == Outcome(Err(Eof), 2)
  {
    RunOnLine("", events, 0);
  }

  /** A failure after an unfinished line ends the read with that failure;
      the text typed so far is discarded. */
  lemma FailureDiscardsStatement(events: seq<Event>)
    requires |events| >= 2 && events[0].Line? && events[1].Fail?
    requires IsOrdinary(events[0].text) && !Terminates(TrimEnd(events[0].text))
    ensures Read(events) == Outcome(Err(events[1].error), 2)
  {
    RunOnLine("", events, 0);
  }

  /** "select 1;" is a statement by itself. */
  lemma OneLineExample()
    ensures Read([Line("select 1;")]).result == Ok(Sql("select 1;"))
  {
    var events := [Line("select 1;")];
    assert IsOrdinary("select 1;") && TrimEnd("select 1;") == "select 1;" && Terminates("select 1;") by {
      assert "select 1;"[..1] == "s" && "select 1;"[8..] == ";";
    }
    OneLineStatement(events);
  }

  /** How the lines "select " and "1;" are classified. */
  lemma TrailingSpaceLines()
    ensures IsOrdinary("select ") && TrimEnd("select ") == "select" && !Terminates("select")
    ensures IsOrdinary("1;") && TrimEnd("1;") == "1;" && Terminates("1;")
    ensures "select" + "1;" == "select1;"
  {
    assert "select "[..6] == "select" && "select "[..1] == "s";
    assert "1;"[1..] == ";" && "1;"[..1] == "1";
    assert "select"[5..] == "t";
  }

  /** "select " then "1;" is "select1;": the trailing space is trimmed and
      nothing is put between the fragments. */
  lemma TrailingSpaceExample()
    ensures Read([Line("select "), Line("1;")]).result == Ok(Sql("select1;"))
  {
    var events := [Line("select "), Line("1;")];
    TrailingSpaceLines();
    TwoLineStatement(events);
  }

  /** How the lines "select 1", ".tables" and "go" are classified. */
  lemma DotLineLines()
    ensures IsOrdinary("select 1") && TrimEnd("select 1") == "select 1" && !Terminates("select 1")
    ensures IsDotLine(".tables")
    ensures IsOrdinary("go") && TrimEnd("go") == "go" && Terminates("go")
    ensures "select 1" + ".tables" + "go" == "select 1.tablesgo"
  {
    assert "select 1"[7..] == "1" && "select 1"[..1] == "s";
    assert ".tables"[..1] == "." && "go"[..1] == "g";
  }

  /** "select 1", ".tables", "go" is the statement "select 1.tablesgo". */
  lemma DotLineExample()
    ensures Read([Line("select 1"), Line(".tables"), Line("go")]).result == Ok(Sql("select 1.tablesgo"))
  {
    var events := [Line("select 1"), Line(".tables"), Line("go")];
    DotLineLines();
    DotLineInsideStatement(events);
  }

  /** "  go" is not the `go` terminator: the statement stays open. */
  lemma IndentedGoExample()
    ensures Read([Line("  go")]) == Outcome(Err(Eof), 2)
  {
    var events := [Line("  go")];
    assert TrimEnd("  go") == "  go" && !Terminates("  go") by {
      assert "  go"[3..] == "o";
    }
    assert "  go"[..1] == " ";
    UnterminatedStatementAtEnd(events);
  }
}
