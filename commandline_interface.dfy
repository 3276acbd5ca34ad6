/** commandline_interface.py: the session of the stand-alone client. Like
    the tgpt package's interface it skips blank lines and treats `/`-lines
    as commands, but it knows only /exit, /quit and /help, answers a prompt
    with `generate_text` and catches nothing: an exception from the client,
    or the `EOFError` of `input()` when the lines run out, ends the session. */
module CommandLine {
  import opened Wrappers
  import opened PyText
  import opened PyDict
  import opened Http
  import GptClient

  /** `_print_help()`. */
  const HelpLines: seq<string> :=
    ["Available commands:", "/exit or /quit: Exit the program", "/help: Show this help message"]

  /** How `handle_command` ends. */
  datatype Handled =
    | ReturnedTrue  // "/help"
    | ReturnedNone  // `_print_help()`'s None, for any other command
    | SystemExit    // `_exit()`'s `sys.exit()`

  /** What `handle_command(command)` prints and how it ends. */
  datatype Effect = Effect(shown: seq<string>, handled: Handled)

  /** `handle_command(command)`: the exit commands say goodbye and exit, the
      help command prints the help, anything else prints a complaint and the
      help and returns None, which ends the loop. */
  function HandleCommand(command: string): (e: Effect)
    ensures e.handled == SystemExit <==> command == "/exit" || command == "/quit"
    ensures e.handled == ReturnedTrue <==> command == "/help"
    ensures e.handled == SystemExit ==> e.shown == ["Goodbye!"]
    ensures e.handled != SystemExit ==> |e.shown| >= 3 && e.shown[|e.shown| - 3..] == HelpLines
  {
    if command == "/exit" || command == "/quit" then Effect(["Goodbye!"], SystemExit)
    else if command == "/help" then Effect(HelpLines, ReturnedTrue)
    else Effect(["Invalid command, please use one of the following:"] + HelpLines, ReturnedNone)
  }

  /** `print_response(response_text)`. */
  function PrintResponse(text: string): string {
    "\ngpt: " + text
  }

  /** The printed line gives the reply back: different replies are printed
      differently. */
  lemma PrintResponseInjective(a: string, b: string)
    requires PrintResponse(a) == PrintResponse(b)
    ensures a == b
  {
    assert a == PrintResponse(a)[6..];
    assert b == PrintResponse(b)[6..];
  }

  /** What `handle_completion` returns when it does not raise: "" for an
      empty prompt, else the list `completions` returned. */
  datatype Completed = EmptyPrompt | Texts(texts: seq<string>)

  /** How a session ends: by `sys.exit()`, by the `break` after an unknown
      command, or by an exception that escapes `run`. */
  datatype End = Exited | Broke | Raised(error: Error)

  /** What a running session knows: the client's history and how many
      requests it made. */
  datatype Session = Session(history: seq<Message>, calls: nat)

  datatype Next = Goto(i: nat) | Stop(end: End)

  datatype StepResult = StepResult(session: Session, shown: seq<string>, next: Next)

  /** A `/`-line: `handle_command`, and a falsy result breaks the loop. */
  function CommandStep(s: Session, line: string, i: nat): (r: StepResult)
    ensures r.session == s
    ensures r.next.Goto? ==> r.next.i == i + 1
  {
    var e := HandleCommand(line);
    StepResult(s, e.shown, match e.handled
                           case ReturnedTrue => Goto(i + 1)
                           case ReturnedNone => Stop(Broke)
                           case SystemExit => Stop(Exited))
  }

  /** A prompt line: `generate_text` answered by the next reply, then
      `print_response`; an exception from the client escapes `run`. */
  function PromptStep(s: Session, line: string, i: nat, replies: nat -> Response<seq<Choice>>): (r: StepResult)
    ensures r.session == Session(GptClient.HistoryAfterGenerate(s.history, line, replies(s.calls)), s.calls + 1)
    ensures r.next.Goto? ==> r.next.i == i + 1
  {
    var response := replies(s.calls);
    var s' := Session(GptClient.HistoryAfterGenerate(s.history, line, response), s.calls + 1);
    match GptClient.FirstContentStripped(response)
    case Ok(text) => StepResult(s', [PrintResponse(text)], Goto(i + 1))
    case Err(e) => StepResult(s', [], Stop(Raised(e)))
  }

  /** One turn of `run`'s loop on line `i`; `replies(k)` is the server's
      answer to the k-th request. */
  function Step(s: Session, lines: seq<string>, i: nat, replies: nat -> Response<seq<Choice>>): (r: StepResult)
    requires i < |lines|
    ensures r.next.Goto? ==> r.next.i == i + 1
  {
    if Strip(lines[i]) == "" then StepResult(s, [], Goto(i + 1))
    else if StartsWith(lines[i], "/") then CommandStep(s, lines[i], i)
    else PromptStep(s, lines[i], i, replies)
  }

  datatype Outcome = Outcome(session: Session, shown: seq<string>, end: End)

  /** `run`'s loop from line `i` on; past the last line `input()` raises
      `EOFError`. */
  function RunFrom(s: Session, lines: seq<string>, i: nat, replies: nat -> Response<seq<Choice>>): Outcome
    requires i <= |lines|
    decreases |lines| - i
  {
    if i == |lines| then Outcome(s, [], Raised(EOFError))
    else
      var st := Step(s, lines, i, replies);
      match st.next
      case Stop(e) => Outcome(st.session, st.shown, e)
      case Goto(j) =>
        var rest := RunFrom(st.session, lines, j, replies);
        Outcome(rest.session, st.shown + rest.shown, rest.end)
  }

  /** The output `out` followed by the run from line `i` is the whole run. */
  predicate Remains(whole: Outcome, out: seq<string>, s: Session, lines: seq<string>, i: nat,
                    replies: nat -> Response<seq<Choice>>)
    requires i <= |lines|
  {
    var rest := RunFrom(s, lines, i, replies);
    whole == Outcome(rest.session, out + rest.shown, rest.end)
  }

  lemma RemainsAfterGoto(whole: Outcome, out: seq<string>, s: Session, lines: seq<string>, i: nat,
                         replies: nat -> Response<seq<Choice>>, s': Session, printed: seq<string>, j: nat)
    requires i < |lines| && Remains(whole, out, s, lines, i, replies)
    requires Step(s, lines, i, replies) == StepResult(s', printed, Goto(j))
    ensures j <= |lines| && Remains(whole, out + printed, s', lines, j, replies)
  {
    var rest := RunFrom(s', lines, j, replies);
    assert out + printed + rest.shown == out + (printed + rest.shown);
  }

  lemma RemainsAfterStop(whole: Outcome, out: seq<string>, s: Session, lines: seq<string>, i: nat,
                         replies: nat -> Response<seq<Choice>>, s': Session, printed: seq<string>, e: End)
    requires i < |lines| && Remains(whole, out, s, lines, i, replies)
    requires Step(s, lines, i, replies) == StepResult(s', printed, Stop(e))
    ensures whole == Outcome(s', out + printed, e)
  {
  }

  /** The run after a turn that goes on at line `j`. */
  lemma RunFromGoto(s: Session, lines: seq<string>, i: nat, replies: nat -> Response<seq<Choice>>,
                    s': Session, printed: seq<string>, j: nat)
    requires i < |lines| && Step(s, lines, i, replies) == StepResult(s', printed, Goto(j))
    ensures j <= |lines|
    ensures var rest := RunFrom(s', lines, j, replies);
            RunFrom(s, lines, i, replies) == Outcome(rest.session, printed + rest.shown, rest.end)
  {
  }

  /** A line that is no command. */
  predicate IsPromptLine(line: string) {
    Strip(line) != "" && !StartsWith(line, "/")
  }

  /** A prompt the server cannot answer ends the session with the client's
      exception, after the history took what `generate_text` left in it. */
  lemma FailureEnds(s: Session, lines: seq<string>, i: nat, replies: nat -> Response<seq<Choice>>)
    requires i < |lines| && IsPromptLine(lines[i])
    requires GptClient.FirstContentStripped(replies(s.calls)).Err?
    ensures RunFrom(s, lines, i, replies)
            == Outcome(Session(GptClient.HistoryAfterGenerate(s.history, lines[i], replies(s.calls)), s.calls + 1),
                       [], Raised(GptClient.FirstContentStripped(replies(s.calls)).error))
  {
  }

  /** "/exit" and "/quit" say goodbye and end the session. */
  lemma ExitCommandEnds(s: Session, lines: seq<string>, i: nat, replies: nat -> Response<seq<Choice>>)
    requires i < |lines| && (lines[i] == "/exit" || lines[i] == "/quit")
    ensures RunFrom(s, lines, i, replies) == Outcome(s, ["Goodbye!"], Exited)
  {
    assert StartsWith(lines[i], "/");
    SlashLineNotBlank(lines[i]);
    assert HandleCommand(lines[i]) == Effect(["Goodbye!"], SystemExit);
    assert Step(s, lines, i, replies) == CommandStep(s, lines[i], i) == StepResult(s, ["Goodbye!"], Stop(Exited));
  }

  /** Any other command but "/help" ends the session with the complaint and
      the help. */
  lemma UnknownCommandEnds(s: Session, lines: seq<string>, i: nat, replies: nat -> Response<seq<Choice>>)
    requires i < |lines| && StartsWith(lines[i], "/")
    requires lines[i] !in {"/exit", "/quit", "/help"}
    ensures RunFrom(s, lines, i, replies)
            == Outcome(s, ["Invalid command, please use one of the following:"] + HelpLines, Broke)
  {
    SlashLineNotBlank(lines[i]);
    var shown := ["Invalid command, please use one of the following:"] + HelpLines;
    assert HandleCommand(lines[i]) == Effect(shown, ReturnedNone);
    assert Step(s, lines, i, replies) == CommandStep(s, lines[i], i) == StepResult(s, shown, Stop(Broke));
  }

  /** "exit" without the slash is not a command name: `handle_command`
      complains and returns None. */
  lemma ExitWithoutSlashIsUnknown()
    ensures HandleCommand("exit").handled == ReturnedNone
  {
    assert "exit" != "/exit" && "exit" != "/quit" && "exit" != "/help";
  }

  /** An answered prompt prints the reply and the run goes on after it. */
  lemma AnsweredRun(s: Session, lines: seq<string>, i: nat, replies: nat -> Response<seq<Choice>>)
    requires i < |lines| && IsPromptLine(lines[i])
    requires GptClient.FirstContentStripped(replies(s.calls)).Ok?
    ensures var s' := Session(GptClient.HistoryAfterGenerate(s.history, lines[i], replies(s.calls)), s.calls + 1);
            var rest := RunFrom(s', lines, i + 1, replies);
            RunFrom(s, lines, i, replies)
            == Outcome(rest.session, [PrintResponse(GptClient.FirstContentStripped(replies(s.calls)).value)] + rest.shown,
                       rest.end)
  {
    var s' := Session(GptClient.HistoryAfterGenerate(s.history, lines[i], replies(s.calls)), s.calls + 1);
    var printed := [PrintResponse(GptClient.FirstContentStripped(replies(s.calls)).value)];
    assert PromptStep(s, lines[i], i, replies) == StepResult(s', printed, Goto(i + 1));
    assert Step(s, lines, i, replies) == PromptStep(s, lines[i], i, replies);
    RunFromGoto(s, lines, i, replies, s', printed, i + 1);
  }

  /** The session never runs out of input quietly: lines that are all
      answered prompts end, after one printed reply each, in the `EOFError`
      of the next `input()`. */
  lemma {:induction false} AnsweredPromptsEndInEOF(s: Session, lines: seq<string>, i: nat,
                                                   replies: nat -> Response<seq<Choice>>)
    requires i <= |lines|
    requires forall j :: i <= j < |lines| ==> IsPromptLine(lines[j])
    requires forall k :: s.calls <= k < s.calls + (|lines| - i) ==> GptClient.FirstContentStripped(replies(k)).Ok?
    ensures var r := RunFrom(s, lines, i, replies);
            && r.end == Raised(EOFError)
            && |r.shown| == |lines| - i
            && r.session.calls == s.calls + (|lines| - i)
            && s.history <= r.session.history
    decreases |lines| - i
  {
    if i < |lines| {
      assert IsPromptLine(lines[i]);
      assert GptClient.FirstContentStripped(replies(s.calls)).Ok?;
      AnsweredRun(s, lines, i, replies);
      var s' := Session(GptClient.HistoryAfterGenerate(s.history, lines[i], replies(s.calls)), s.calls + 1);
      GptClient.HistoryAfterGenerateGrows(s.history, lines[i], replies(s.calls));
      AnsweredPromptsEndInEOF(s', lines, i + 1, replies);
    }
  }

  /** What `run` prints before its loop. */
  const Welcome: seq<string> := ["Welcome to TerminalGPT!", "Type '/exit or /quit' to end the session."]

  /** The interface: a client and nothing else. */
  class CommandLineInterface {
    const client: GptClient.GPTClient

    /** `CommandLineInterface(client)`. */
    constructor (client: GptClient.GPTClient)
      ensures this.client == client
    {
      this.client := client;
    }

    /** `handle_completion(prompt)`: "" for an empty prompt, with nothing
        sent; otherwise `completions(prompt, max_tokens=1024, n=1,
        stop=None)`, whose temperature is that method's own default 0.7, not
        the client's. */
    method HandleCompletion(prompt: string, response: Response<seq<Choice>>)
      returns (result: Result<Completed, Error>, sent: Option<Request>)
      ensures prompt == "" ==> result == Ok(EmptyPrompt) && sent == None
      ensures prompt != "" ==>
        && result == (match GptClient.CompletionsResult(response, 1)
                      case Ok(texts) => Ok(Texts(texts))
                      case Err(e) => Err(e))
        && sent == Some(Request(client.endpointCompletions, JsonHeaders(client.apiKey),
                                GptClient.CompletionsPayload(client.model, prompt, 1024, 0.7, Int(1), Int(1),
                                                             Int(0), Int(0), Null)))
    {
      if prompt == "" {
        return Ok(EmptyPrompt), None;
      }
      var completion, request := client.Completions(prompt, response, maxTokens := 1024, n := 1, stop := Null);
      sent := Some(request);
      if completion.Err? {
        return Err(completion.error), sent;
      }
      result := Ok(Texts(completion.value));
    }

    /** One turn of `run`'s loop, as `Step` says. */
    method Turn(lines: seq<string>, i: nat, calls: nat, replies: nat -> Response<seq<Choice>>)
      returns (printed: seq<string>, next: Next)
      requires i < |lines|
      modifies client.chatHistory
      ensures var st := Step(Session(old(client.chatHistory.items), calls), lines, i, replies);
              && st.session == Session(client.chatHistory.items, if IsPromptLine(lines[i]) then calls + 1 else calls)
              && printed == st.shown && next == st.next
    {
      var line := lines[i];
      if Strip(line) == "" {
        return [], Goto(i + 1);
      }
      if StartsWith(line, "/") {
        var e := HandleCommand(line);
        printed := e.shown;
        match e.handled {
          case ReturnedTrue => next := Goto(i + 1);
          case ReturnedNone => next := Stop(Broke);
          case SystemExit => next := Stop(Exited);
        }
        return;
      }
      var response, sent := client.GenerateText(line, replies(calls));
      if response.Err? {
        return [], Stop(Raised(response.error));
      }
      printed, next := [PrintResponse(response.value)], Goto(i + 1);
    }

    /** `run`'s `while True` loop over `lines`, turn by turn as `RunFrom`
        says. */
    method Loop(lines: seq<string>, replies: nat -> Response<seq<Choice>>) returns (out: seq<string>, end: End)
      modifies client.chatHistory
      ensures var r := RunFrom(Session(old(client.chatHistory.items), 0), lines, 0, replies);
              out == r.shown && end == r.end && client.chatHistory.items == r.session.history
    {
      ghost var whole := RunFrom(Session(client.chatHistory.items, 0), lines, 0, replies);
      out := [];
      var i: nat := 0;
      var calls: nat := 0;
      assert out + whole.shown == whole.shown;
      while i < |lines|
        invariant i <= |lines|
        invariant Remains(whole, out, Session(client.chatHistory.items, calls), lines, i, replies)
        decreases |lines| - i
      {
        ghost var before := Session(client.chatHistory.items, calls);
        var printed, next := Turn(lines, i, calls, replies);
        if IsPromptLine(lines[i]) {
          calls := calls + 1;
        }
        ghost var after := Session(client.chatHistory.items, calls);
        match next {
          case Goto(j) =>
            RemainsAfterGoto(whole, out, before, lines, i, replies, after, printed, j);
            out := out + printed;
            i := j;
          case Stop(e) =>
            RemainsAfterStop(whole, out, before, lines, i, replies, after, printed, e);
            out, end := out + printed, e;
            return;
        }
      }
      end := Raised(EOFError);
    }

    /** `run()` over `lines`: the welcome, then the loop. */
    method Run(lines: seq<string>, replies: nat -> Response<seq<Choice>>) returns (shown: seq<string>, end: End)
      modifies client.chatHistory
      ensures var r := RunFrom(Session(old(client.chatHistory.items), 0), lines, 0, replies);
              && shown == Welcome + r.shown && end == r.end && client.chatHistory.items == r.session.history
    {
      var out;
      out, end := Loop(lines, replies);
      shown := Welcome + out;
    }
  }
}
