/** tgpt/commandline_interface.py: the interactive session of the tgpt
    package. `run` reads lines until an exit command or an unknown command;
    blank lines are skipped, `/`-lines are commands matched as whole
    strings, and every other line is a prompt whose first answer is
    printed wrapped to the current width. Any `Exception` inside one turn
    is printed and the loop goes on; `sys.exit` raises `SystemExit`, which
    is not an `Exception`, so the exit commands end the session.

    Input is a sequence of lines, the server's answers are an oracle indexed
    by the number of completion calls made so far, and `float()`, `int()`
    and `textwrap.fill` are parameters: the model does not reimplement
    Python's number parsing or line filling. */
module TgptCommandLine {
  import opened Wrappers
  import opened PyText
  import opened PyDict
  import opened Http
  import TgptClient

  const DefaultWidth := 80

  /** One `print` call. The two kinds whose text depends on Python's
      formatting of a float or of an exception are kept structured. */
  datatype Shown =
    | Line(text: string)
    | TemperatureSet(temperature: real)  // print(f"Temperature set to {temp}")
    | Failure(error: Error)              // print(f"An error occurred: {e}")

  /** `_print_help()`. */
  const HelpLines: seq<Shown> :=
    [Line("Available commands:"), Line("/exit or /quit: Exit the program"),
     Line("/temperature: set new temperature"), Line("/max-tokens: set new max tokens"),
     Line("/width: set new print width"), Line("/help: Show this help message")]

  /** What a session draws on besides its input lines: the server's answer
      to the k-th completion call, Python's `float()` and `int()` on a line
      (`None` where they raise `ValueError`), and `textwrap.fill` for a
      positive width (for any other width it raises, see `FillRaises`). */
  datatype Env = Env(replies: nat -> Response<seq<Choice>>, parseFloat: string -> Option<real>,
                     parseInt: string -> Option<int>, fill: (string, int) -> string)

  /** `fill` applied to each of `lines`. */
  function FilledLines(lines: seq<string>, width: int, fill: (string, int) -> string): seq<string> {
    seq(|lines|, i requires 0 <= i < |lines| => fill(lines[i], width))
  }

  /** The wrapped text of a completion: each of its lines filled on its own,
      the results joined by newlines again. */
  function Wrapped(text: string, width: int, fill: (string, int) -> string): string {
    JoinLines(FilledLines(SplitLines(text), width, fill))
  }

  /** `textwrap.fill(line, width)` raises `ValueError` ("invalid width")
      for a width that is not positive, whatever the line, even an empty one. */
  predicate FillRaises(width: int) {
    width <= 0
  }

  /** The `wrapped_lines` loop: fills the lines of `text` one by one. As
      `split("\n")` always yields a line, a width that is not positive makes
      the first `fill` raise. */
  method WrapLines(text: string, width: int, fill: (string, int) -> string) returns (wrapped: Result<string, Error>)
    ensures FillRaises(width) ==> wrapped == Err(ValueError)
    ensures !FillRaises(width) ==> wrapped == Ok(Wrapped(text, width, fill))
  {
    var wrappedLines: seq<string> := [];
    var lines := SplitLines(text);
    for k := 0 to |lines|
      invariant |wrappedLines| == k
      invariant forall j :: 0 <= j < k ==> wrappedLines[j] == fill(lines[j], width)
      invariant FillRaises(width) ==> k == 0
    {
      if FillRaises(width) {
        return Err(ValueError);
      }
      var wrappedLine := fill(lines[k], width);
      wrappedLines := wrappedLines + [wrappedLine];
    }
    assert wrappedLines == FilledLines(lines, width, fill);
    wrapped := Ok(JoinLines(wrappedLines));
  }

  /** A text whose every line `fill` leaves alone is printed exactly as it
      came. */
  lemma WrappedUnchanged(text: string, width: int, fill: (string, int) -> string)
    requires forall i :: 0 <= i < |SplitLines(text)| ==> fill(SplitLines(text)[i], width) == SplitLines(text)[i]
    ensures Wrapped(text, width, fill) == text
  {
    assert FilledLines(SplitLines(text), width, fill) == SplitLines(text);
    JoinSplit(text);
  }

  /** When `fill` puts no newline into a line, the wrapped text has exactly
      one line per line of the original, the i-th being the fill of the
      i-th. */
  lemma WrappedLines(text: string, width: int, fill: (string, int) -> string)
    requires forall i :: 0 <= i < |SplitLines(text)| ==> '\n' !in fill(SplitLines(text)[i], width)
    ensures SplitLines(Wrapped(text, width, fill)) == FilledLines(SplitLines(text), width, fill)
  {
    SplitJoin(FilledLines(SplitLines(text), width, fill));
  }

  /** The command names `handle_command` knows. */
  datatype Command = Exit | Help | Temperature | MaxTokens | Width | Invalid

  /** `handle_command`'s dispatch: the whole line is compared with each
      name, so nothing but the exact names is recognised. */
  function CommandOf(command: string): (c: Command)
    ensures c == Invalid <==> command !in {"/exit", "/quit", "/help", "/temperature", "/max-tokens", "/width"}
    ensures c == Exit <==> command == "/exit" || command == "/quit"
  {
    if command == "/exit" || command == "/quit" then Exit
    else if command == "/help" then Help
    else if command == "/temperature" then Temperature
    else if command == "/max-tokens" then MaxTokens
    else if command == "/width" then Width
    else Invalid
  }

  /** A command with an argument, such as "/width 100", holds a space, and
      no known name does: it is an unknown command. */
  lemma ArgumentMakesInvalid(command: string)
    requires ' ' in command
    ensures CommandOf(command) == Invalid
  {
    assert ' ' !in "/exit" && ' ' !in "/quit" && ' ' !in "/help";
    assert ' ' !in "/temperature" && ' ' !in "/max-tokens" && ' ' !in "/width";
  }

  /** The settings a session can change: the interface's width and the
      client's max_tokens and temperature. */
  datatype Settings = Settings(width: int, maxTokens: int, temperature: real)

  /** How `handle_command` ends, as `run` sees it. */
  datatype Handled =
    | ReturnedTrue(read: nat)  // True, after reading `read` more lines
    | ReturnedNone             // `_print_help()`'s None, for an unknown command
    | ParseFailed              // `float()` or `int()` raised ValueError on the line read
    | SystemExit               // `sys.exit`
    | InputExhausted           // `input()` had no line left

  /** What one command does to the settings, what it prints and how it
      ends. `next` is the line a further `input()` would return. */
  datatype Effect = Effect(settings: Settings, shown: seq<Shown>, handled: Handled)

  /** `handle_command(command)`. */
  function CommandEffect(s: Settings, command: string, next: Option<string>,
                         parseFloat: string -> Option<real>, parseInt: string -> Option<int>): (e: Effect)
    ensures e.handled.ReturnedTrue? ==> e.handled.read <= (if next.Some? then 1 else 0)
    ensures e.handled.ParseFailed? ==> next.Some?
    ensures CommandOf(command) == Invalid <==> e.handled == ReturnedNone
    ensures CommandOf(command) == Exit <==> e.handled == SystemExit
  {
    match CommandOf(command)
    case Exit => Effect(s, [Line("Goodbye!")], SystemExit)
    case Help => Effect(s, HelpLines, ReturnedTrue(0))
    case Invalid => Effect(s, [Line("Invalid command, please use one of the following:")] + HelpLines, ReturnedNone)
    case Temperature =>
      if next.None? then Effect(s, [], InputExhausted)
      else
        (match parseFloat(next.value)
         case None => Effect(s, [], ParseFailed)
         case Some(t) => Effect(s.(temperature := t), [TemperatureSet(t)], ReturnedTrue(1)))
    case MaxTokens =>
      if next.None? then Effect(s, [], InputExhausted)
      else
        (match parseInt(next.value)
         case None => Effect(s, [], ParseFailed)
         case Some(k) => Effect(s.(maxTokens := k), [Line("Max tokens set to " + IntToString(k))], ReturnedTrue(1)))
    case Width =>
      if next.None? then Effect(s, [], InputExhausted)
      else
        (match parseInt(next.value)
         case None => Effect(s, [], ParseFailed)
         case Some(w) => Effect(s.(width := w), [Line("New width set to " + IntToString(w) + " ")], ReturnedTrue(1)))
  }

  /** Each setting command changes its own setting and no other; every
      other command changes none. */
  lemma CommandChangesOwnSetting(s: Settings, command: string, next: Option<string>,
                                 parseFloat: string -> Option<real>, parseInt: string -> Option<int>)
    ensures var e := CommandEffect(s, command, next, parseFloat, parseInt);
            && (CommandOf(command) != Width ==> e.settings.width == s.width)
            && (CommandOf(command) != MaxTokens ==> e.settings.maxTokens == s.maxTokens)
            && (CommandOf(command) != Temperature ==> e.settings.temperature == s.temperature)
            && (!e.handled.ReturnedTrue? ==> e.settings == s)
  {
  }

  /** "/width" followed by a line `int()` reads as `w` sets the width to
      `w`, reads that one line and continues. */
  lemma WidthCommandSetsWidth(s: Settings, next: string, parseFloat: string -> Option<real>,
                              parseInt: string -> Option<int>, w: int)
    requires parseInt(next) == Some(w)
    ensures var e := CommandEffect(s, "/width", Some(next), parseFloat, parseInt);
            e.settings == s.(width := w) && e.handled == ReturnedTrue(1)
  {
  }

  /** "/temperature" followed by a line `float()` reads as `t` stores `t`
      as the client's temperature, reports it, reads that one line and
      continues. */
  lemma TemperatureCommandSetsTemperature(s: Settings, next: string, parseFloat: string -> Option<real>,
                                          parseInt: string -> Option<int>, t: real)
    requires parseFloat(next) == Some(t)
    ensures var e := CommandEffect(s, "/temperature", Some(next), parseFloat, parseInt);
            e.settings == s.(temperature := t) && e.shown == [TemperatureSet(t)] && e.handled == ReturnedTrue(1)
  {
  }

  /** "/max-tokens" followed by a line `int()` reads as `k` stores `k` as
      the client's max_tokens, reports it, reads that one line and continues. */
  lemma MaxTokensCommandSetsMaxTokens(s: Settings, next: string, parseFloat: string -> Option<real>,
                                      parseInt: string -> Option<int>, k: int)
    requires parseInt(next) == Some(k)
    ensures var e := CommandEffect(s, "/max-tokens", Some(next), parseFloat, parseInt);
            && e.settings == s.(maxTokens := k)
            && e.shown == [Line("Max tokens set to " + IntToString(k))]
            && e.handled == ReturnedTrue(1)
  {
  }

  /** What a running session knows: the settings, the client's history and
      how many completion calls it made. */
  datatype Session = Session(settings: Settings, history: seq<Message>, calls: nat)

  /** How a session ends. `EndOfInput`: the lines ran out; the source's
      `input()` then raises `EOFError`, which `run` catches and prints, and
      the loop goes on asking forever. */
  datatype End = Exited | Broke | EndOfInput

  /** Where the loop goes after a line. */
  datatype Next = Goto(i: nat) | Stop(end: End)

  datatype StepResult = StepResult(session: Session, shown: seq<Shown>, next: Next)

  /** A `/`-line: `handle_command` with the following line as what a
      further `input()` returns. A `ValueError` from `float()` or `int()` is
      printed and the loop goes on after the line that was read. */
  function CommandStep(s: Session, lines: seq<string>, i: nat, env: Env): (r: StepResult)
    requires i < |lines|
    ensures r.next.Goto? ==> i < r.next.i <= |lines|
  {
    var next := if i + 1 < |lines| then Some(lines[i + 1]) else None;
    var e := CommandEffect(s.settings, lines[i], next, env.parseFloat, env.parseInt);
    var s' := s.(settings := e.settings);
    match e.handled
    case ReturnedTrue(read) => StepResult(s', e.shown, Goto(i + 1 + read))
    case ParseFailed => StepResult(s', e.shown + [Failure(ValueError)], Goto(i + 2))
    case ReturnedNone => StepResult(s', e.shown, Stop(Broke))
    case SystemExit => StepResult(s', e.shown, Stop(Exited))
    case InputExhausted => StepResult(s', e.shown, Stop(EndOfInput))
  }

  /** A prompt line: one `completion` call answered by the next reply of
      the oracle, then its first text printed wrapped, or the `IndexError`
      of `response[0]` on the empty list a failed call returns, or the
      `ValueError` of `textwrap.fill` when the width is not positive. */
  function PromptStep(s: Session, line: string, i: nat, env: Env): (r: StepResult)
    ensures r.next == Goto(i + 1) && |r.shown| == 1
    ensures r.session == s.(history := TgptClient.HistoryAfterCompletion(s.history, line, env.replies(s.calls)),
                            calls := s.calls + 1)
  {
    var response := env.replies(s.calls);
    var texts := TgptClient.CompletionText(response);
    var s' := s.(history := TgptClient.HistoryAfterCompletion(s.history, line, response), calls := s.calls + 1);
    if texts == [] then StepResult(s', [Failure(IndexError)], Goto(i + 1))
    else if FillRaises(s.settings.width) then StepResult(s', [Failure(ValueError)], Goto(i + 1))
    else StepResult(s', [Line("\nGPT: " + Wrapped(texts[0], s.settings.width, env.fill))], Goto(i + 1))
  }

  /** One turn of `run`'s loop on line `i`. */
  function Step(s: Session, lines: seq<string>, i: nat, env: Env): (r: StepResult)
    requires i < |lines|
    ensures r.next.Goto? ==> i < r.next.i <= |lines|
  {
    if Strip(lines[i]) == "" then StepResult(s, [], Goto(i + 1))
    else if StartsWith(lines[i], "/") then CommandStep(s, lines, i, env)
    else PromptStep(s, lines[i], i, env)
  }

  datatype Outcome = Outcome(session: Session, shown: seq<Shown>, end: End)

  /** `run`'s loop from line `i` on. */
  function RunFrom(s: Session, lines: seq<string>, i: nat, env: Env): Outcome
    requires i <= |lines|
    decreases |lines| - i
  {
    if i == |lines| then Outcome(s, [], EndOfInput)
    else
      var st := Step(s, lines, i, env);
      match st.next
      case Stop(e) => Outcome(st.session, st.shown, e)
      case Goto(j) =>
        var rest := RunFrom(st.session, lines, j, env);
        Outcome(rest.session, st.shown + rest.shown, rest.end)
  }

  /** What is left of a run after the output `out`: the run from line `i`
      with `out` printed before it. */
  predicate Remains(whole: Outcome, out: seq<Shown>, s: Session, lines: seq<string>, i: nat, env: Env)
    requires i <= |lines|
  {
    var rest := RunFrom(s, lines, i, env);
    whole == Outcome(rest.session, out + rest.shown, rest.end)
  }

  /** The run after a turn that goes on at line `j`. */
  lemma RunFromGoto(s: Session, lines: seq<string>, i: nat, env: Env, s': Session, printed: seq<Shown>, j: nat)
    requires i < |lines| && Step(s, lines, i, env) == StepResult(s', printed, Goto(j))
    ensures j <= |lines|
    ensures var rest := RunFrom(s', lines, j, env);
            RunFrom(s, lines, i, env) == Outcome(rest.session, printed + rest.shown, rest.end)
  {
  }

  /** "/temperature" followed by a line `float()` rejects. */
  lemma TemperatureRejected(s: Settings, next: string, parseFloat: string -> Option<real>,
                            parseInt: string -> Option<int>)
    requires parseFloat(next).None?
    ensures CommandEffect(s, "/temperature", Some(next), parseFloat, parseInt) == Effect(s, [], ParseFailed)
  {
  }

  /** A turn that goes on at line `j` leaves the rest of the run from `j`. */
  lemma RemainsAfterGoto(whole: Outcome, out: seq<Shown>, s: Session, lines: seq<string>, i: nat, env: Env,
                         s': Session, printed: seq<Shown>, j: nat)
    requires i < |lines| && Remains(whole, out, s, lines, i, env)
    requires Step(s, lines, i, env) == StepResult(s', printed, Goto(j))
    ensures j <= |lines| && Remains(whole, out + printed, s', lines, j, env)
  {
    var rest := RunFrom(s', lines, j, env);
    assert out + printed + rest.shown == out + (printed + rest.shown);
  }

  /** A turn that ends the loop leaves the whole run told. */
  lemma RemainsAfterStop(whole: Outcome, out: seq<Shown>, s: Session, lines: seq<string>, i: nat, env: Env,
                         s': Session, printed: seq<Shown>, e: End)
    requires i < |lines| && Remains(whole, out, s, lines, i, env)
    requires Step(s, lines, i, env) == StepResult(s', printed, Stop(e))
    ensures whole == Outcome(s', out + printed, e)
  {
  }

  /** A whitespace-only line is skipped: nothing is printed, sent or
      changed for it. */
  lemma BlankLineSkipped(s: Session, lines: seq<string>, i: nat, env: Env)
    requires i < |lines| && AllSpace(lines[i])
    ensures RunFrom(s, lines, i, env) == RunFrom(s, lines, i + 1, env)
  {
    StripEmptyIffAllSpace(lines[i]);
  }

  /** An unknown command ends the loop: the help text is printed after the
      complaint, and no later line is read. */
  lemma UnknownCommandEnds(s: Session, lines: seq<string>, i: nat, env: Env)
    requires i < |lines| && StartsWith(lines[i], "/") && CommandOf(lines[i]) == Invalid
    ensures RunFrom(s, lines, i, env)
            == Outcome(s, [Line("Invalid command, please use one of the following:")] + HelpLines, Broke)
  {
    SlashLineNotBlank(lines[i]);
    var shown := [Line("Invalid command, please use one of the following:")] + HelpLines;
    var next := if i + 1 < |lines| then Some(lines[i + 1]) else None;
    assert CommandEffect(s.settings, lines[i], next, env.parseFloat, env.parseInt) == Effect(s.settings, shown, ReturnedNone);
    assert s.(settings := s.settings) == s;
    assert Step(s, lines, i, env) == CommandStep(s, lines, i, env) == StepResult(s, shown, Stop(Broke));
  }

  /** "/exit" and "/quit" say goodbye and end the session. */
  lemma ExitCommandEnds(s: Session, lines: seq<string>, i: nat, env: Env)
    requires i < |lines| && (lines[i] == "/exit" || lines[i] == "/quit")
    ensures RunFrom(s, lines, i, env) == Outcome(s, [Line("Goodbye!")], Exited)
  {
    assert CommandOf(lines[i]) == Exit;
    assert StartsWith(lines[i], "/");
    SlashLineNotBlank(lines[i]);
    var next := if i + 1 < |lines| then Some(lines[i + 1]) else None;
    assert CommandEffect(s.settings, lines[i], next, env.parseFloat, env.parseInt)
        == Effect(s.settings, [Line("Goodbye!")], SystemExit);
    assert s.(settings := s.settings) == s;
    assert Step(s, lines, i, env) == CommandStep(s, lines, i, env) == StepResult(s, [Line("Goodbye!")], Stop(Exited));
  }

  /** A prompt whose completion came back empty (a failed call returns
      `[]`) prints the `IndexError` of `response[0]`, and the loop goes on
      with the next line. */
  lemma EmptyCompletionContinues(s: Session, lines: seq<string>, i: nat, env: Env)
    requires i < |lines| && Strip(lines[i]) != "" && !StartsWith(lines[i], "/")
    requires TgptClient.CompletionText(env.replies(s.calls)) == []
    ensures var s' := s.(history := TgptClient.HistoryAfterCompletion(s.history, lines[i], env.replies(s.calls)),
                         calls := s.calls + 1);
            var rest := RunFrom(s', lines, i + 1, env);
            RunFrom(s, lines, i, env) == Outcome(rest.session, [Failure(IndexError)] + rest.shown, rest.end)
  {
    var s' := s.(history := TgptClient.HistoryAfterCompletion(s.history, lines[i], env.replies(s.calls)),
                 calls := s.calls + 1);
    assert Step(s, lines, i, env) == StepResult(s', [Failure(IndexError)], Goto(i + 1));
  }

  /** A prompt answered while the width is not positive (any `int()` value
      is accepted by "/width") reports the `ValueError` of `textwrap.fill`
      instead of an answer, and the loop goes on with the next line; the
      history still takes the call. */
  lemma NonPositiveWidthReported(s: Session, lines: seq<string>, i: nat, env: Env)
    requires i < |lines| && Strip(lines[i]) != "" && !StartsWith(lines[i], "/")
    requires TgptClient.CompletionText(env.replies(s.calls)) != [] && s.settings.width <= 0
    ensures var s' := s.(history := TgptClient.HistoryAfterCompletion(s.history, lines[i], env.replies(s.calls)),
                         calls := s.calls + 1);
            var rest := RunFrom(s', lines, i + 1, env);
            RunFrom(s, lines, i, env) == Outcome(rest.session, [Failure(ValueError)] + rest.shown, rest.end)
  {
    var s' := s.(history := TgptClient.HistoryAfterCompletion(s.history, lines[i], env.replies(s.calls)),
                 calls := s.calls + 1);
    assert Step(s, lines, i, env) == PromptStep(s, lines[i], i, env)
        == StepResult(s', [Failure(ValueError)], Goto(i + 1));
  }

  /** A value `float()` rejects after "/temperature" is reported as a
      `ValueError`, nothing changes, and the loop goes on after the line
      that was read. */
  lemma BadTemperatureContinues(s: Session, lines: seq<string>, i: nat, env: Env)
    requires i + 1 < |lines| && lines[i] == "/temperature" && env.parseFloat(lines[i + 1]).None?
    ensures var rest := RunFrom(s, lines, i + 2, env);
            RunFrom(s, lines, i, env) == Outcome(rest.session, [Failure(ValueError)] + rest.shown, rest.end)
  {
    assert StartsWith(lines[i], "/");
    SlashLineNotBlank(lines[i]);
    TemperatureRejected(s.settings, lines[i + 1], env.parseFloat, env.parseInt);
    var e := CommandEffect(s.settings, lines[i], Some(lines[i + 1]), env.parseFloat, env.parseInt);
    assert e.shown + [Failure(ValueError)] == [Failure(ValueError)];
    assert s.(settings := e.settings) == s;
    assert CommandStep(s, lines, i, env) == StepResult(s, [Failure(ValueError)], Goto(i + 2));
    RunFromGoto(s, lines, i, env, s, [Failure(ValueError)], i + 2);
  }

  /** A line that is no command. */
  predicate IsPromptLine(line: string) {
    Strip(line) != "" && !StartsWith(line, "/")
  }

  /** The calls a run of prompt lines makes, with the answers the oracle
      gives from call `k` on. */
  function Calls(prompts: seq<string>, k: nat, replies: nat -> Response<seq<Choice>>): seq<TgptClient.Call>
    decreases |prompts|
  {
    if prompts == [] then []
    else [TgptClient.Call(prompts[0], replies(k))] + Calls(prompts[1..], k + 1, replies)
  }

  /** Lines that are all prompts run to the end of input, leave the
      settings alone and leave the history that the calls, one per line in
      order, leave. */
  lemma {:induction false} PromptsOnly(s: Session, lines: seq<string>, i: nat, env: Env)
    requires i <= |lines|
    requires forall j :: i <= j < |lines| ==> IsPromptLine(lines[j])
    ensures var r := RunFrom(s, lines, i, env);
            && r.end == EndOfInput
            && r.session.settings == s.settings
            && r.session.calls == s.calls + (|lines| - i)
            && r.session.history == TgptClient.HistoryAfterCalls(s.history, Calls(lines[i..], s.calls, env.replies))
            && |r.shown| == |lines| - i
    decreases |lines| - i
  {
    if i < |lines| {
      assert IsPromptLine(lines[i]);
      var st := PromptStep(s, lines[i], i, env);
      assert Step(s, lines, i, env) == st;
      PromptsOnly(st.session, lines, i + 1, env);
      assert lines[i..][1..] == lines[i + 1..];
      assert Calls(lines[i..], s.calls, env.replies)
          == [TgptClient.Call(lines[i], env.replies(s.calls))] + Calls(lines[i + 1..], s.calls + 1, env.replies);
    }
  }

  /** "Answer:" for the first completion, "Answer 2:", "Answer 3:" and so on
      after it. */
  function Heading(i: nat): string {
    if i + 1 == 1 then "\nAnswer:" else "\nAnswer " + NatToString(i + 1) + ":"
  }

  /** No two completions get the same heading. */
  lemma HeadingsDistinct(i: nat, j: nat)
    requires i != j
    ensures Heading(i) != Heading(j)
  {
    if i > 0 && j > 0 {
      NumberedNamesDistinct("\nAnswer ", i + 1, j + 1, ":");
    } else {
      assert |Heading(0)| == 8 && |Heading(if i == 0 then j else i)| > 8;
    }
  }

  /** What `handle_completion` prints for the completions `texts`: a heading
      and the wrapped text for each, in order. */
  function Answers(texts: seq<string>, width: int, fill: (string, int) -> string): seq<Shown>
    decreases |texts|
  {
    if texts == [] then []
    else
      Answers(texts[..|texts| - 1], width, fill)
      + [Line(Heading(|texts| - 1)), Line("\n" + Wrapped(texts[|texts| - 1], width, fill))]
  }

  /** Two lines per completion: the k-th heading, then the k-th text. */
  lemma {:induction false} AnswersShape(texts: seq<string>, width: int, fill: (string, int) -> string, k: nat)
    requires k < |texts|
    ensures |Answers(texts, width, fill)| == 2 * |texts|
    ensures Answers(texts, width, fill)[2 * k] == Line(Heading(k))
    ensures Answers(texts, width, fill)[2 * k + 1] == Line("\n" + Wrapped(texts[k], width, fill))
    decreases |texts|
  {
    var init := texts[..|texts| - 1];
    if k < |texts| - 1 {
      AnswersShape(init, width, fill, k);
      assert init[k] == texts[k];
    } else if init != [] {
      AnswersShape(init, width, fill, 0);
    }
  }

  /** The name the i-th generated image is saved under. */
  function GenerateFileName(i: nat, timestamp: string): string {
    "gpt-generate-" + NatToString(i) + "-" + timestamp + ".png"
  }

  /** The name the i-th image variation is saved under. */
  function VariationFileName(i: nat, timestamp: string): string {
    "gpt-variation-" + NatToString(i) + "-" + timestamp + ".png"
  }

  /** `os.path.join(folder, name)` for a relative `name`: a separator is put
      between them unless `folder` is empty or already ends with one. */
  function JoinPath(folder: string, name: string): (path: string)
    ensures path == folder + name || path == folder + "/" + name
  {
    if folder == "" || folder[|folder| - 1] == '/' then folder + name else folder + "/" + name
  }

  /** The images of one call get names that differ by their index. */
  lemma GenerateFileNamesDistinct(i: nat, j: nat, timestamp: string)
    requires i != j
    ensures GenerateFileName(i, timestamp) != GenerateFileName(j, timestamp)
  {
    var t := "-" + timestamp + ".png";
    assert GenerateFileName(i, timestamp) == "gpt-generate-" + NatToString(i) + t;
    assert GenerateFileName(j, timestamp) == "gpt-generate-" + NatToString(j) + t;
    NumberedNamesDistinct("gpt-generate-", i, j, t);
  }

  /** Likewise for variations. */
  lemma VariationFileNamesDistinct(i: nat, j: nat, timestamp: string)
    requires i != j
    ensures VariationFileName(i, timestamp) != VariationFileName(j, timestamp)
  {
    var t := "-" + timestamp + ".png";
    assert VariationFileName(i, timestamp) == "gpt-variation-" + NatToString(i) + t;
    assert VariationFileName(j, timestamp) == "gpt-variation-" + NatToString(j) + t;
    NumberedNamesDistinct("gpt-variation-", i, j, t);
  }

  /** `os.path.join` puts one folder in front of different names in the
      same way, so different names stay different. */
  lemma JoinPathInjective(folder: string, a: string, b: string)
    requires JoinPath(folder, a) == JoinPath(folder, b)
    ensures a == b
  {
    var p := if folder == "" || folder[|folder| - 1] == '/' then folder else folder + "/";
    assert JoinPath(folder, a) == p + a && JoinPath(folder, b) == p + b;
    assert a == (p + a)[|p|..] && b == (p + b)[|p|..];
  }

  /** The paths `generate_image` saves `k` images under, in `folder`. */
  function GeneratePaths(folder: string, k: nat, timestamp: string): (paths: seq<string>)
    ensures |paths| == k
  {
    seq(k, i requires 0 <= i < k => JoinPath(folder, GenerateFileName(i, timestamp)))
  }

  /** No two of the images of one call are saved under one path. */
  lemma GeneratePathsDistinct(folder: string, k: nat, timestamp: string, i: nat, j: nat)
    requires i < j < k
    ensures GeneratePaths(folder, k, timestamp)[i] != GeneratePaths(folder, k, timestamp)[j]
  {
    if GeneratePaths(folder, k, timestamp)[i] == GeneratePaths(folder, k, timestamp)[j] {
      JoinPathInjective(folder, GenerateFileName(i, timestamp), GenerateFileName(j, timestamp));
      GenerateFileNamesDistinct(i, j, timestamp);
    }
  }

  /** A generated image and a variation never share a name. */
  lemma GenerateNeverVariation(i: nat, j: nat, timestamp: string, timestamp': string)
    ensures GenerateFileName(i, timestamp) != VariationFileName(j, timestamp')
  {
    assert GenerateFileName(i, timestamp)[4] == 'g';
    assert VariationFileName(j, timestamp')[4] == 'v';
  }

  /** What `run` prints before its loop. */
  function Welcome(model: string): seq<Shown> {
    [Line("Welcome to TGPT! You are talking to model: " + model),
     Line("Type '/exit or /quit' to end the session, /help for more commands.")]
  }

  /** The interface. `width` is the one field of its own that changes; the
      commands also change the client's max_tokens and temperature. */
  class CommandLineInterface {
    const client: TgptClient.GPTClient
    var width: int

    /** `CommandLineInterface(client)`: width 80. */
    constructor (client: TgptClient.GPTClient)
      ensures this.client == client && width == DefaultWidth
    {
      this.client := client;
      width := DefaultWidth;
    }

    /** The settings as they stand. */
    function CurrentSettings(): Settings
      reads this, client
    {
      Settings(width, client.maxTokens, client.temperature)
    }

    /** `set_width(width)`. */
    method SetWidth(width: int)
      modifies this`width
      ensures this.width == width
    {
      this.width := width;
    }

    /** `handle_command(command)`, `next` being what a further `input()`
        returns. */
    method HandleCommand(command: string, next: Option<string>, parseFloat: string -> Option<real>,
                         parseInt: string -> Option<int>)
      returns (handled: Handled, shown: seq<Shown>)
      modifies this`width, client`maxTokens, client`temperature
      ensures var e := CommandEffect(old(CurrentSettings()), command, next, parseFloat, parseInt);
              CurrentSettings() == e.settings && shown == e.shown && handled == e.handled
    {
      if command == "/exit" || command == "/quit" {
        return SystemExit, [Line("Goodbye!")];
      } else if command == "/help" {
        return ReturnedTrue(0), HelpLines;
      } else if command == "/temperature" {
        if next.None? {
          return InputExhausted, [];
        }
        var temp := parseFloat(next.value);
        if temp.None? {
          return ParseFailed, [];
        }
        client.SetTemperature(temp.value);
        return ReturnedTrue(1), [TemperatureSet(temp.value)];
      } else if command == "/max-tokens" {
        if next.None? {
          return InputExhausted, [];
        }
        var tokens := parseInt(next.value);
        if tokens.None? {
          return ParseFailed, [];
        }
        client.SetMaxTokens(tokens.value);
        return ReturnedTrue(1), [Line("Max tokens set to " + IntToString(tokens.value))];
      } else if command == "/width" {
        if next.None? {
          return InputExhausted, [];
        }
        var w := parseInt(next.value);
        if w.None? {
          return ParseFailed, [];
        }
        SetWidth(w.value);
        return ReturnedTrue(1), [Line("New width set to " + IntToString(w.value) + " ")];
      } else {
        return ReturnedNone, [Line("Invalid command, please use one of the following:")] + HelpLines;
      }
    }

    /** The printing loop of `handle_completion`: a heading and the wrapped
        text for each completion, in order. With a width that is not
        positive the first heading is printed and then `fill` raises. */
    method PrintAnswers(texts: seq<string>, fill: (string, int) -> string)
      returns (shown: seq<Shown>, raised: Option<Error>)
      ensures !FillRaises(width) || texts == [] ==> shown == Answers(texts, width, fill) && raised == None
      ensures FillRaises(width) && texts != [] ==> shown == [Line(Heading(0))] && raised == Some(ValueError)
    {
      shown := [];
      for k := 0 to |texts|
        invariant shown == Answers(texts[..k], width, fill)
        invariant FillRaises(width) ==> k == 0
      {
        shown := shown + [Line(Heading(k))];
        var wrapped := WrapLines(texts[k], width, fill);
        if wrapped.Err? {
          return shown, Some(wrapped.error);
        }
        assert texts[..k + 1][..k] == texts[..k];
        shown := shown + [Line("\n" + wrapped.value)];
      }
      assert texts[..|texts|] == texts;
      raised := None;
    }

    /** `handle_completion(prompt, n=1)`: "" for an empty prompt, with no
        call; otherwise one `completion(prompt, n=n, stop=None)` call, each
        text printed under its heading, and True; the `ValueError` of
        `fill` escapes after the first heading when the width is not
        positive and there is a text to print. */
    method HandleCompletion(prompt: string, response: Response<seq<Choice>>, fill: (string, int) -> string,
                            n: int := 1)
      returns (result: Result<Value, Error>, shown: seq<Shown>, sent: Option<Request>)
      modifies client.chatHistory
      ensures prompt == "" ==> result == Ok(Str("")) && shown == [] && sent == None
                               && client.chatHistory.items == old(client.chatHistory.items)
      ensures prompt != "" && (!FillRaises(width) || TgptClient.CompletionText(response) == []) ==>
        result == Ok(Bool(true)) && shown == Answers(TgptClient.CompletionText(response), width, fill)
      ensures prompt != "" && FillRaises(width) && TgptClient.CompletionText(response) != [] ==>
        result == Err(ValueError) && shown == [Line(Heading(0))]
      ensures prompt != "" ==>
        && client.chatHistory.items == TgptClient.HistoryAfterCompletion(old(client.chatHistory.items), prompt, response)
        && sent == Some(Request(client.endpointCompletions, client.headers,
                                TgptClient.CompletionPayload(client.model, old(client.chatHistory.items) + [Message(User, prompt)],
                                                             client.maxTokens, client.temperature, Int(1), Int(0),
                                                             Int(0), n, Null)))
    {
      if prompt == "" {
        return Ok(Str("")), [], None;
      }
      var texts, request := client.Completion(prompt, response, n := n, stop := Null);
      sent := Some(request);
      var raised;
      shown, raised := PrintAnswers(texts, fill);
      result := if raised.Some? then Err(raised.value) else Ok(Bool(true));
    }

    /** One turn of `run` on a `/`-line, as `CommandStep` says. */
    method CommandTurn(lines: seq<string>, i: nat, calls: nat, env: Env) returns (printed: seq<Shown>, next: Next)
      requires i < |lines|
      modifies this`width, client`maxTokens, client`temperature
      ensures var st := CommandStep(Session(old(CurrentSettings()), client.chatHistory.items, calls), lines, i, env);
              CurrentSettings() == st.session.settings && printed == st.shown && next == st.next
    {
      var following := if i + 1 < |lines| then Some(lines[i + 1]) else None;
      var handled;
      handled, printed := HandleCommand(lines[i], following, env.parseFloat, env.parseInt);
      match handled {
        case ReturnedTrue(read) => next := Goto(i + 1 + read);
        case ParseFailed =>
          printed := printed + [Failure(ValueError)];
          next := Goto(i + 2);
        case ReturnedNone => next := Stop(Broke);
        case SystemExit => next := Stop(Exited);
        case InputExhausted => next := Stop(EndOfInput);
      }
    }

    /** One turn of `run` on a prompt line, as `PromptStep` says: the
        completion, then `response[0]` wrapped line by line. */
    method PromptTurn(line: string, i: nat, calls: nat, env: Env) returns (printed: seq<Shown>)
      modifies client.chatHistory
      ensures var st := PromptStep(Session(CurrentSettings(), old(client.chatHistory.items), calls), line, i, env);
              client.chatHistory.items == st.session.history && printed == st.shown
    {
      var texts, sent := client.Completion(line, env.replies(calls));
      if texts == [] {
        printed := [Failure(IndexError)];
      } else {
        var wrapped := WrapLines(texts[0], width, env.fill);
        match wrapped {
          case Err(e) => printed := [Failure(e)];
          case Ok(w) => printed := [Line("\nGPT: " + w)];
        }
      }
    }

    /** One turn of `run`'s loop on line `i`, as `Step` says. */
    method Turn(lines: seq<string>, i: nat, calls: nat, env: Env) returns (printed: seq<Shown>, next: Next, calls': nat)
      requires i < |lines|
      modifies this`width, client`maxTokens, client`temperature, client.chatHistory
      ensures var st := Step(Session(old(CurrentSettings()), old(client.chatHistory.items), calls), lines, i, env);
              && Session(CurrentSettings(), client.chatHistory.items, calls') == st.session
              && printed == st.shown && next == st.next
    {
      if Strip(lines[i]) == "" {
        printed, next, calls' := [], Goto(i + 1), calls;
      } else if StartsWith(lines[i], "/") {
        printed, next := CommandTurn(lines, i, calls, env);
        calls' := calls;
      } else {
        printed := PromptTurn(lines[i], i, calls, env);
        next, calls' := Goto(i + 1), calls + 1;
      }
    }

    /** `run`'s `while True` loop over `lines`, turn by turn as `RunFrom`
        says. */
    method Loop(lines: seq<string>, env: Env) returns (out: seq<Shown>, end: End)
      modifies this`width, client`maxTokens, client`temperature, client.chatHistory
      ensures var r := RunFrom(Session(old(CurrentSettings()), old(client.chatHistory.items), 0), lines, 0, env);
              out == r.shown && end == r.end && Session(CurrentSettings(), client.chatHistory.items, r.session.calls) == r.session
    {
      ghost var whole := RunFrom(Session(CurrentSettings(), client.chatHistory.items, 0), lines, 0, env);
      out := [];
      var i: nat := 0;
      var calls: nat := 0;
      assert out + whole.shown == whole.shown;
      while i < |lines|
        invariant i <= |lines|
        invariant Remains(whole, out, Session(CurrentSettings(), client.chatHistory.items, calls), lines, i, env)
        decreases |lines| - i
      {
        ghost var before := Session(CurrentSettings(), client.chatHistory.items, calls);
        var printed, next;
        printed, next, calls := Turn(lines, i, calls, env);
        ghost var after := Session(CurrentSettings(), client.chatHistory.items, calls);
        match next {
          case Goto(j) =>
            RemainsAfterGoto(whole, out, before, lines, i, env, after, printed, j);
            out := out + printed;
            i := j;
          case Stop(e) =>
            RemainsAfterStop(whole, out, before, lines, i, env, after, printed, e);
            out, end := out + printed, e;
            return;
        }
      }
      end := EndOfInput;
    }

    /** `run()` over `lines`: the welcome, then the loop; the settings and
        the history end as `RunFrom` says. */
    method Run(lines: seq<string>, env: Env) returns (shown: seq<Shown>, end: End)
      modifies this`width, client`maxTokens, client`temperature, client.chatHistory
      ensures var r := RunFrom(Session(old(CurrentSettings()), old(client.chatHistory.items), 0), lines, 0, env);
              && shown == Welcome(client.model) + r.shown
              && end == r.end
              && CurrentSettings() == r.session.settings
              && client.chatHistory.items == r.session.history
    {
      var out;
      out, end := Loop(lines, env);
      shown := Welcome(client.GetModel()) + out;
    }
  }
}
