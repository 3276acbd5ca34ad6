# TGPT in Dafny

TGPT is a terminal client for the OpenAI API. This project models its request-building
clients, their chat history, the image request builder, the two interactive command
lines and the cached API key file. It also proves what these promise.

The model does no networking and no terminal or file I/O. Each outside effect becomes a value.
- **HTTP answer.** An answer to a request is an input `Response<T>`. It is either a
  connection failure or a status with a body. The body is not JSON, lacks the member the
  client reads, or holds that member.
- **Outgoing request.** Every operation that posts something returns that request
  (`sent: Request(url, headers, body)`), so the contracts can speak about the URL, the
  headers and the JSON body.
- **Python dict.** A dict is an insertion-ordered list of key/value pairs (`PyDict.Dict`).
  Reading looks up the first match. Item assignment replaces in place or appends.
- **Python list.** A list that several names share is a `PyDict.ListRef` object. This
  models the history aliasing in `completion` and `generate_text`: when the history is not
  empty, they append the user turn to the history list itself before posting it.

Layout, one module per source file plus four helper modules:

| module | models |
|---|---|
| `Wrappers` | `Option` and `Result` |
| `PyText` | `str.strip`, `startswith`, `split("\n")` / `"\n".join`, integer formatting |
| `PyDict` | JSON values, dicts, item assignment, `dict.update`, shared lists |
| `Http` | `requests.post` answers, `raise_for_status`, `response.json()[...]`, the exceptions |
| `TgptClient` | `tgpt/gpt_client.py` |
| `GptClient` | `gpt_client.py` |
| `ChatGptClient` | `chat_gpt_client.py` |
| `TgptImageHandler` | `tgpt/image_handler.py` |
| `TgptCommandLine` | `tgpt/commandline_interface.py` |
| `CommandLine` | `commandline_interface.py` |
| `ApiKey` | `api_key_file.py` |

Each interactive `run` loop is a method over a finite sequence of input lines.
- **Specification.** A session function says what the loop does: `RunFrom` is built from
  one `Step` per line.
- **Method.** The loop method is proved equal to that function.
- **Lemmas.** Lemmas about the function state what a session does. Examples: a blank line
  is skipped, an unknown command ends the loop, an exit command says goodbye and ends it,
  and a run of prompts only grows the history.
- **Transcript.** What the program prints is part of the result.

Behaviour of the code worth noting, which the model follows:
- **Command matching.** A command is matched as a whole string, and its value is read from
  the next input line. It is not parsed as a name followed by arguments, so `/width 100` is
  an invalid command.
- **Invalid commands.** An invalid command ends the session, because `_print_help()` returns
  `None`. The `handle_command` docstring of `commandline_interface.py` (lines 62-67) says the
  result tells whether to continue, so a `None` result stops the loop.
- **Unknown image sizes.** An unknown size name fails fast in `generate_image` only;
  `generate_variation` returns `[]`.
- **Errors in `gpt_client.py`.** `generate_text`, `completions` and `prompt` let
  exceptions escape. The stand-alone command line has no `try`, so an exception ends its
  session.
- **Saving images.** Images are never saved: `save_image` does not exist, so only the file
  names are modelled.

## Model

| member | source | states |
|---|---|---|
| `PyText.Strip` | api_key_file.py:28 | `str.strip()`: the result is a contiguous piece of the input that neither starts nor ends with whitespace |
| `PyText.StripEmptyIffAllSpace` | tgpt/commandline_interface.py:21 | `line.strip() == ""` exactly when every character is whitespace |
| `PyText.StripIdempotent` | api_key_file.py:28 | stripping a stripped key changes nothing |
| `PyText.JoinSplit` | tgpt/commandline_interface.py:29-34 | `"\n".join(s.split("\n")) == s` |
| `PyText.SplitJoin` | tgpt/commandline_interface.py:29-34 | splitting a join of newline-free pieces gives the pieces back |
| `PyText.NatToStringInjective` | tgpt/commandline_interface.py:96 | different indices are formatted as different digit strings |
| `PyDict.SetGet` | chat_gpt_client.py:56 | after `d[k] = v`, `d[k]` is `v` and every other key reads as before |
| `PyDict.SetKeys` | tgpt/image_handler.py:17 | item assignment keeps the key order and appends a new key at the end |
| `PyDict.SetEachKeys` | chat_gpt_client.py:55-66 | a run of conditional insertions of new distinct keys adds exactly the keys whose condition holds, in order |
| `PyDict.SetEachGet` | chat_gpt_client.py:55-66 | each key of such a run holds its value exactly when its condition holds |
| `PyDict.Update` | chat_gpt_client.py:150 | `d.update(kw)`: a key of `kw` reads as in `kw`, any other as in `d` |
| `PyDict.UpdateKeys` | chat_gpt_client.py:150 | `update` keeps the existing keys and adds exactly the keys of `kw` |
| `PyDict.ListRef.Append` | tgpt/gpt_client.py:132-133 | `list.append` adds one element at the end and changes nothing else |
| `Http.Decoded` | chat_gpt_client.py:83-87 | `raise_for_status()` then `json()["choices"]`: the member exactly when every stage passes, else the exception of the first stage that fails |
| `Http.FirstChoice` | gpt_client.py:151-153 | `choices[0]`: succeeds exactly on a passing answer with a non-empty list, `IndexError` for an empty one |
| `Http.JsonHeaders` | tgpt/gpt_client.py:24-26 | the headers: JSON content type and the bearer key, in that order |
| `TgptClient.GPTClient.constructor` | tgpt/gpt_client.py:16-29 | a fresh client has an empty history, the given model, max_tokens and temperature (default "gpt-3.5-turbo", 100, 0.7), the endpoint and the bearer headers |
| `TgptClient.CompletionLiteralFields` | tgpt/gpt_client.py:39-49 | the payload literal has its nine keys in order; model, max_tokens and temperature come from the client, and `n` and `stop` are forwarded verbatim |
| `TgptClient.CompletionPayloadFields` | tgpt/gpt_client.py:39-56 | the payload's messages are the given list and every other key keeps its literal value |
| `TgptClient.CompletionPayloadKeys` | tgpt/gpt_client.py:39-56 | assigning `"messages"` keeps the literal's key order |
| `TgptClient.ChoiceContents` | tgpt/gpt_client.py:67 | the comprehension succeeds exactly when every choice has a content, and then holds every content in server order |
| `TgptClient.GPTClient.Completion` | tgpt/gpt_client.py:32-72 | posts `[user p]` for an empty history and the history with `user p` appended otherwise; returns every content, or `[]` on any failure; the new history is `HistoryAfterCompletion` of the old one |
| `TgptClient.CompletionCases` | tgpt/gpt_client.py:51-72 | on failure the history is unchanged if it was empty and gains `user p` otherwise; with zero choices `response[0]` fails after the aliasing append; on success the history gains `user p, assistant c0` (and an extra earlier `user p` when it was not empty) |
| `TgptClient.ResultFollowsChoices` | tgpt/gpt_client.py:65-69 | on success the result has one content per choice, in order, whatever `n` was |
| `TgptClient.GPTClient.AddToChatHistory` | tgpt/gpt_client.py:122-133 | keeps element 0 of a list response and appends exactly user then assistant; an empty list raises `IndexError` before either append |
| `TgptClient.GPTClient.SetMaxTokens` | tgpt/gpt_client.py:74-78 | assigns max_tokens and no other field |
| `TgptClient.GPTClient.GetMaxTokens` | tgpt/gpt_client.py:80-87 | returns the current max_tokens |
| `TgptClient.GPTClient.SetTemperature` | tgpt/gpt_client.py:89-93 | assigns temperature and no other field |
| `TgptClient.GPTClient.GetTemperature` | tgpt/gpt_client.py:95-102 | returns the current temperature |
| `TgptClient.GPTClient.GetModel` | tgpt/gpt_client.py:104-111 | returns the model |
| `TgptClient.GPTClient.GetChatHistory` | tgpt/gpt_client.py:113-120 | returns the live history list object itself |
| `TgptClient.SettersReachPayload` | tgpt/gpt_client.py:42-43 | values set by the two setters are the ones the next `completion` posts |
| `TgptClient.HistoryOnlyGrows` | tgpt/gpt_client.py:51-69 | over any sequence of calls the old history remains a prefix of the new |
| `TgptClient.FreshHistoryLength` | tgpt/gpt_client.py:51-56 | from an empty history, k successful calls leave 3k-1 messages (the first call adds two, each later call three) |
| `TgptClient.LaterCallsAddThree` | tgpt/gpt_client.py:52-54 | from a non-empty history, each successful call adds three messages |
| `GptClient.GPTClient.constructor` | gpt_client.py:18-35 | empty history, the model, the endpoint and headers, temperature 0.5 and max_tokens 100 |
| `GptClient.OptionalKeys` | gpt_client.py:62-66 | `"stop"` is present exactly when stop is not None and `"messages"` exactly when chat_log is not None; every other key is untouched |
| `GptClient.PromptPayloadFields` | gpt_client.py:54-66 | `prompt`'s payload has model "gpt-3.5-turbo" whatever the client's model, the prompt, temperature, max_tokens, top_p, then the optional keys |
| `GptClient.GPTClient.Prompt` | gpt_client.py:37-73 | posts that payload; returns the stripped first text, or the exception of the first failing stage |
| `GptClient.CompletionsLiteralFields` | gpt_client.py:92-101 | the literal's model, n and stop are the client's model and the arguments |
| `GptClient.CompletionsPayloadFields` | gpt_client.py:92-104 | the payload has the eight literal keys, `"stop"` always among them, then `"messages"` holding the single user turn |
| `GptClient.FirstContents` | gpt_client.py:114-116 | the loop succeeds exactly when the first `n` choices exist and have contents, and then returns those contents in order; otherwise it raises `IndexError` or `KeyError` |
| `GptClient.FirstContentsStaysFailed` | gpt_client.py:115-116 | once the loop raised, more iterations raise the same |
| `GptClient.FirstContentsKeyError` | gpt_client.py:115-116 | the loop raises `KeyError` exactly when some choice within the first `n` lacks a content and every choice before it has one |
| `GptClient.CompletionsResult` | gpt_client.py:106-117 | transport failure raises, a status other than 200 raises `ValueError`, a bad body raises its decoding error, otherwise the loop's result |
| `GptClient.GPTClient.Completions` | gpt_client.py:76-117 | posts the single-turn payload, returns `CompletionsResult` and never touches the history |
| `GptClient.CompletionsTakesFirstN` | gpt_client.py:113-117 | with enough answered choices the result is exactly the first `n` contents in order |
| `GptClient.CompletionsTooFew` | gpt_client.py:115-116 | asking for more completions than were returned raises `IndexError` |
| `GptClient.GenerateTextLiteralFields` | gpt_client.py:131-139 | the literal carries the client's model, max_tokens and temperature |
| `GptClient.GenerateTextPayloadFields` | gpt_client.py:131-146 | the payload keeps the literal's seven keys in order with `"messages"` filled in |
| `GptClient.FirstContentStripped` | gpt_client.py:151-153 | the stripped first content exactly when the first choice exists and has one; the stage's exception otherwise |
| `GptClient.GPTClient.GenerateText` | gpt_client.py:119-155 | posts the history-aliasing payload, returns the stripped text, and leaves `HistoryAfterGenerate` of the old history |
| `GptClient.GenerateTextCases` | gpt_client.py:141-155 | on failure the history gains `user p` only when it was non-empty; on success it gains `user p, assistant strip(c0)` after that |
| `GptClient.HistoryAfterGenerateGrows` | gpt_client.py:141-154 | the old history stays a prefix and at most three messages are added |
| `GptClient.GPTClient.AddToChatHistory` | gpt_client.py:157-167 | appends exactly user then assistant, earlier entries unchanged |
| `GptClient.GPTClient.GetChatHistory` | gpt_client.py:169-175 | returns the live history list |
| `ChatGptClient.PromptReply` | chat_gpt_client.py:37-40 | the reply is the stripped text, and it is "" exactly when the text is all whitespace |
| `ChatGptClient.ChatGPTClient.constructor` | chat_gpt_client.py:9-15 | the key, engine "text-davinci-002" and an empty history |
| `ChatGptClient.BaseFields` | chat_gpt_client.py:54 | the six fixed keys hold prompt, max_tokens, temperature, top_p, frequency_penalty and presence_penalty |
| `ChatGptClient.BaseKeysOf` | chat_gpt_client.py:54 | the fixed keys, in order |
| `ChatGptClient.OptionsInOrder` | chat_gpt_client.py:55-66 | the six `if` insertions applied one after the other are the run of options |
| `ChatGptClient.OptionsChosen` | chat_gpt_client.py:55-66 | the options applied are stop if not None, echo if truthy, n if not None, stream if truthy, logprobs and engine if not None |
| `ChatGptClient.OptionsDistinct` | chat_gpt_client.py:55-66 | the six option keys differ from each other and from `"model"` |
| `ChatGptClient.OptionKeysOf` | chat_gpt_client.py:55-66 | the option keys in source order |
| `ChatGptClient.OptionKeysNotBase` | chat_gpt_client.py:54-66 | no option key is a fixed key |
| `ChatGptClient.BaseLacksOptions` | chat_gpt_client.py:54-66 | the fixed part has none of the option keys |
| `ChatGptClient.CompletionsDataKeys` | chat_gpt_client.py:54-68 | the body's keys are the six fixed ones, the options that apply in source order, then `"model"` last |
| `ChatGptClient.CompletionsDataFixed` | chat_gpt_client.py:54-68 | the body's fixed keys and `"model"` (the engine) hold their values |
| `ChatGptClient.CompletionsDataOption` | chat_gpt_client.py:55-66 | one option key holds its argument exactly when its condition holds, and is absent otherwise |
| `ChatGptClient.CompletionsDataOptions` | chat_gpt_client.py:55-68 | all six option keys at once, in the same terms |
| `ChatGptClient.CompletionsDataOther` | chat_gpt_client.py:54-68 | any other key reads as in the fixed part |
| `ChatGptClient.ChatGPTClient.Completions` | chat_gpt_client.py:42-87 | posts that body to endpoint + "completions" and returns the `choices` list unchanged, or the exception of raise_for_status or decoding |
| `ChatGptClient.ChatGPTClient.SetEngine` | chat_gpt_client.py:89-99 | assigns the engine and nothing else |
| `ChatGptClient.EngineCompletionsUrlInjective` | chat_gpt_client.py:138 | the engine URL determines the engine: two engines that post to the same URL are the same engine |
| `ChatGptClient.GenerateTextBody` | chat_gpt_client.py:144-150 | `dict.update` of the literal: both keys stay first, a keyword argument of the same name would override one, every other keyword argument is added (the method itself never sees a `prompt` or `max_tokens` keyword, since Python rejects that call) |
| `ChatGptClient.GenerateTextResult` | chat_gpt_client.py:153-163 | a response that is not ok raises `OpenAIError`; otherwise the first choice's text, unstripped |
| `ChatGptClient.ChatGPTClient.GenerateText` | chat_gpt_client.py:122-163 | for keyword arguments other than `prompt` and `max_tokens`, posts that body to the engine URL and returns `GenerateTextResult` |
| `ChatGptClient.SetEngineThenGenerate` | chat_gpt_client.py:89-138 | the engine set last is the one in the next `generate_text` URL |
| `ChatGptClient.ChatGPTClient.AddToChatHistory` | chat_gpt_client.py:116-117 | appends exactly one message |
| `ChatGptClient.ChatGPTClient.GetChatHistory` | chat_gpt_client.py:119-120 | returns the same list object |
| `TgptImageHandler.SizeOf` | tgpt/image_handler.py:12 | the table is defined exactly on small, medium and large, with 256x256, 512x512 and 1024x1024; any other name is a `KeyError` |
| `TgptImageHandler.ImageHandler.Headers` | tgpt/image_handler.py:9-11 | the handler's headers hold only the bearer key |
| `TgptImageHandler.GenerationBody` | tgpt/image_handler.py:31-37 | the body is model "image-alpha-001", prompt, size, n and response_format, in order |
| `TgptImageHandler.VariationForm` | tgpt/image_handler.py:43-47 | the form is n, size and response_format |
| `TgptImageHandler.ImageHandler.SendRequest` | tgpt/image_handler.py:14-28 | posts with a copy of the headers plus Content-Type; returns the `data` list, or `[]` on any failure |
| `TgptImageHandler.SendRequestHeaders` | tgpt/image_handler.py:16-17 | the handler's own headers never have Content-Type; the copy has both keys with the bearer key unchanged |
| `TgptImageHandler.ImageHandler.GenerateImage` | tgpt/image_handler.py:30-38 | an unknown size raises `KeyError` and sends nothing; otherwise it sends the body and degrades failures to `[]` |
| `TgptImageHandler.ImageHandler.GenerateVariation` | tgpt/image_handler.py:40-55 | an unreadable file or unknown size yields `[]` with nothing sent; otherwise it posts the form with the plain headers and degrades failures to `[]` |
| `TgptImageHandler.UnknownSizeAsymmetry` | tgpt/image_handler.py:30-55 | for an unknown size `generate_image` raises while `generate_variation` returns `[]` |
| `TgptCommandLine.CommandLineInterface.constructor` | tgpt/commandline_interface.py:10-12 | the client is kept and the width is 80 |
| `TgptCommandLine.CommandLineInterface.SetWidth` | tgpt/commandline_interface.py:110-111 | assigns the width |
| `TgptCommandLine.WrapLines` | tgpt/commandline_interface.py:28-34 | for a positive width the wrapping loop yields the join of each line filled to the width; for a width of 0 or less the first `textwrap.fill` raises `ValueError` |
| `TgptCommandLine.WrappedUnchanged` | tgpt/commandline_interface.py:28-34 | text whose lines the fill leaves alone comes back unchanged |
| `TgptCommandLine.WrappedLines` | tgpt/commandline_interface.py:28-34 | the lines of the wrapped text are the filled lines, one per original line |
| `TgptCommandLine.CommandOf` | tgpt/commandline_interface.py:64-87 | the whole line is matched: exactly the six names are commands, and exit means "/exit" or "/quit" |
| `TgptCommandLine.ArgumentMakesInvalid` | tgpt/commandline_interface.py:64-87 | a command written with an argument, such as "/width 100", is invalid |
| `TgptCommandLine.CommandEffect` | tgpt/commandline_interface.py:64-87 | a setting command reads at most the next line; a parse failure needs a line; invalid exactly when `None` is returned; exit exactly when the process exits |
| `TgptCommandLine.CommandChangesOwnSetting` | tgpt/commandline_interface.py:70-84 | each setting command changes only its own setting, and nothing changes unless the command returned True |
| `TgptCommandLine.WidthCommandSetsWidth` | tgpt/commandline_interface.py:80-84 | "/width" followed by a number sets the width to it, reads one line and returns True |
| `TgptCommandLine.TemperatureCommandSetsTemperature` | tgpt/commandline_interface.py:70-74 | "/temperature" followed by a number stores it as the client's temperature, changes nothing else, prints it, reads one line and returns True |
| `TgptCommandLine.MaxTokensCommandSetsMaxTokens` | tgpt/commandline_interface.py:75-79 | "/max-tokens" followed by an integer stores it as the client's max tokens, changes nothing else, prints it, reads one line and returns True |
| `TgptCommandLine.TemperatureRejected` | tgpt/commandline_interface.py:70-71 | a value `float()` rejects raises before any setting changes |
| `TgptCommandLine.CommandLineInterface.HandleCommand` | tgpt/commandline_interface.py:64-87 | the method changes the width and the client's settings exactly as `CommandEffect` says and prints its lines |
| `TgptCommandLine.CommandStep` | tgpt/commandline_interface.py:23-25 | a command line continues past itself, or past the value line it read |
| `TgptCommandLine.PromptStep` | tgpt/commandline_interface.py:26-37 | a prompt makes one completion call, prints one thing (the wrapped reply, or the `IndexError` of an empty list, or the `ValueError` of a width of 0 or less), and the history becomes what `completion` leaves |
| `TgptCommandLine.Step` | tgpt/commandline_interface.py:18-37 | one iteration moves forward within the input |
| `TgptCommandLine.BlankLineSkipped` | tgpt/commandline_interface.py:21-22 | a whitespace-only line changes nothing and prints nothing |
| `TgptCommandLine.UnknownCommandEnds` | tgpt/commandline_interface.py:85-87 | an invalid command prints the complaint and the help, then the loop breaks |
| `TgptCommandLine.ExitCommandEnds` | tgpt/commandline_interface.py:65-66 | "/exit" and "/quit" print "Goodbye!" and end the session |
| `TgptCommandLine.EmptyCompletionContinues` | tgpt/commandline_interface.py:29 | an empty completion list raises `IndexError` at `response[0]`, which is reported, and the loop goes on |
| `TgptCommandLine.NonPositiveWidthReported` | tgpt/commandline_interface.py:31-37 | with a width of 0 or less, a prompt that gets a non-empty completion list reports `ValueError` and the loop goes on with the next line |
| `TgptCommandLine.BadTemperatureContinues` | tgpt/commandline_interface.py:36-37 | a rejected temperature is reported as `ValueError` and the loop goes on after the value line |
| `TgptCommandLine.PromptsOnly` | tgpt/commandline_interface.py:18-35 | lines that are all prompts run to the end, leave the settings alone, print one thing each, and leave the history of those calls in order |
| `TgptCommandLine.HeadingsDistinct` | tgpt/commandline_interface.py:49-52 | "Answer:", "Answer 2:", "Answer 3:" and so on are all different |
| `TgptCommandLine.AnswersShape` | tgpt/commandline_interface.py:48-60 | two printed lines per completion: its heading, then its wrapped text |
| `TgptCommandLine.CommandLineInterface.PrintAnswers` | tgpt/commandline_interface.py:48-60 | for a positive width or no answers the printing loop prints exactly `Answers`; otherwise it prints the first heading and then `textwrap.fill` raises `ValueError` |
| `TgptCommandLine.CommandLineInterface.HandleCompletion` | tgpt/commandline_interface.py:39-62 | an empty prompt returns "" with nothing sent or printed; otherwise the prompt is sent with `n`; with a positive width (or no answers) every answer is printed and True is returned, and with a width of 0 or less and at least one answer the first heading is printed and `ValueError` escapes |
| `TgptCommandLine.JoinPath` | tgpt/commandline_interface.py:96 | `os.path.join` puts the name after the folder, with a separator unless the folder ends in one |
| `TgptCommandLine.JoinPathInjective` | tgpt/commandline_interface.py:96 | different names in one folder give different paths |
| `TgptCommandLine.GenerateFileNamesDistinct` | tgpt/commandline_interface.py:96 | `gpt-generate-{i}-{ts}.png` differs for different indices |
| `TgptCommandLine.VariationFileNamesDistinct` | tgpt/commandline_interface.py:107 | `gpt-variation-{i}-{ts}.png` differs for different indices |
| `TgptCommandLine.GeneratePathsDistinct` | tgpt/commandline_interface.py:93-96 | no two images of one call get the same path |
| `TgptCommandLine.GenerateNeverVariation` | tgpt/commandline_interface.py:91-107 | a generated name never equals a variation name, whatever the timestamps |
| `TgptCommandLine.CommandLineInterface.CommandTurn` | tgpt/commandline_interface.py:23-25 | one command iteration does what `CommandStep` says |
| `TgptCommandLine.CommandLineInterface.PromptTurn` | tgpt/commandline_interface.py:26-35 | one prompt iteration does what `PromptStep` says |
| `TgptCommandLine.CommandLineInterface.Turn` | tgpt/commandline_interface.py:20-37 | one iteration does what `Step` says |
| `TgptCommandLine.CommandLineInterface.Loop` | tgpt/commandline_interface.py:18-37 | the loop prints, ends and leaves settings and history exactly as `RunFrom` says |
| `TgptCommandLine.CommandLineInterface.Run` | tgpt/commandline_interface.py:14-37 | the welcome naming the model, then the loop |
| `CommandLine.CommandLineInterface.constructor` | commandline_interface.py:12-18 | the client is kept |
| `CommandLine.HandleCommand` | commandline_interface.py:61-75 | exit exactly for "/exit" or "/quit", printing "Goodbye!"; True exactly for "/help"; the help is printed otherwise |
| `CommandLine.ExitWithoutSlashIsUnknown` | commandline_interface.py:68-75 | "exit" without the slash returns None |
| `CommandLine.PrintResponseInjective` | commandline_interface.py:38-44 | the printed line determines the reply: different replies are printed differently |
| `CommandLine.CommandLineInterface.HandleCompletion` | commandline_interface.py:46-59 | an empty prompt returns "" with nothing sent; otherwise `completions(prompt, max_tokens=1024, n=1, stop=None)` is sent and its result returned unchanged |
| `CommandLine.CommandStep` | commandline_interface.py:31-33 | a command line continues with the next line or stops |
| `CommandLine.PromptStep` | commandline_interface.py:34-36 | a prompt makes one `generate_text` call and the history becomes what it leaves |
| `CommandLine.Step` | commandline_interface.py:27-36 | one iteration moves to the next line or stops |
| `CommandLine.FailureEnds` | commandline_interface.py:35 | an exception of `generate_text` escapes and ends the session |
| `CommandLine.ExitCommandEnds` | commandline_interface.py:68-69 | "/exit" and "/quit" print "Goodbye!" and end the session |
| `CommandLine.UnknownCommandEnds` | commandline_interface.py:73-75 | any other command prints the complaint and the help, then the loop breaks |
| `CommandLine.AnsweredRun` | commandline_interface.py:34-36 | an answered prompt prints the reply and the run goes on |
| `CommandLine.AnsweredPromptsEndInEOF` | commandline_interface.py:27-36 | all-answered prompt lines print one reply each, keep the old history as a prefix, and end in the `EOFError` of the next `input()` |
| `CommandLine.CommandLineInterface.Turn` | commandline_interface.py:27-36 | one iteration does what `Step` says |
| `CommandLine.CommandLineInterface.Loop` | commandline_interface.py:26-36 | the loop prints, ends and leaves the history exactly as `RunFrom` says |
| `CommandLine.CommandLineInterface.Run` | commandline_interface.py:20-36 | the welcome, then the loop |
| `ApiKey.WithoutTrailingSeparators` | api_key_file.py:16 | the home directory as `expanduser` substitutes it: a prefix of `HOME` that does not end in "/", with only "/" cut off |
| `ApiKey.KeyPath` | api_key_file.py:16 | the key file path ends in "/.tgpt/api", and what comes before it is the home directory without its trailing separators |
| `ApiKey.ApiKeyFile.constructor` | api_key_file.py:11-17 | a new object knows its file and has no cached key |
| `ApiKey.ApiKeyFile.GetApiKey` | api_key_file.py:19-29 | a cached key is returned without reading; otherwise the stripped contents are cached and returned; a file that cannot be opened raises and the cache stays empty |
| `ApiKey.ReadOnceThenCached` | api_key_file.py:26-29 | a second call returns the first key even when the file changed; after a failed first read the second reads again; a returned key is stripped |
| `ApiKey.ResetForcesReread` | api_key_file.py:26-28 | putting None back into the cache makes the next call read the new contents |

## Left out

- HTTP and the OpenAI SDK: `requests.post` and `openai.Completion.create` are not called. Their answer is an input value, and the request is returned.
- Network-only methods of `chat_gpt_client.py` are not modelled. These are `get_engine`, `get_fine_tune`, `cancel_fine_tune`, `list_fine_tune_events`, `delete_fine_tune_model` and `classify_moderation`. They only forward a request.
- `chat_gpt_client.py` `prompt`: only the stripping of its result is modelled (`PromptReply`). The SDK call and the `openai.api_key` global set in the constructor are not.
- Printing of diagnostics: the messages `completion`, `_send_request`, `generate_variation` and `completions` print on failure are not modelled. Only the values returned are.
- Number formatting and parsing are not modelled in full. `float()` and `int()` on an input line are function parameters that succeed or fail. The "Temperature set to ..." line keeps the number as a value (`TemperatureSet`) rather than Python's float formatting. An exception printed by the tgpt loop is kept as the exception (`Failure`), not its message text.
- `textwrap.fill` is a function parameter for a positive width. The model does not say how it breaks lines. For a width of 0 or less it raises `ValueError`, and that is modelled.
- Temperatures are real numbers, not binary floating point.
- `TgptCommandLine.CommandLineInterface.Loop`: the loop ends at the end of the given input (`EndOfInput`). At that point the source's `input()` raises `EOFError`, which its `try` catches, and it then asks again forever.
- `TgptCommandLine.CommandLineInterface.HandleCompletion`: the wrapping of a non-list result into a list is not modelled, because `completion` always returns a list.
- Image saving is not modelled: `client.save_image` does not exist, and `save_path` goes to handler methods that do not accept it. `generate_image` and `generate_variation` of the tgpt command line are modelled only as the file names they would write.
- The pass-through `generate_image` and `generate_variation` of both `GPTClient` classes are not modelled, so they are not part of this model.
- The root `image_handler.py` is not part of this model. The tgpt `ImageHandler` is the one the core uses.
- Outside values are parameters: `datetime.now()` is a timestamp string, `os.getcwd()` the folder, `os.path.expanduser` the home directory, and the file system the `Files` oracle. `open(image_path)` is a `readable` flag.
- `CommandLine.PromptStep` and `CommandLine.CommandLineInterface.HandleCompletion`: the root command line is modelled over the `GPTClient` of `gpt_client.py`, whose `generate_text(prompt)` and `completions(...)` it calls. `main.py` wires it to the `ChatGPTClient` of `chat_gpt_client.py` instead. There, `generate_text` needs `max_tokens`, so the call on `commandline_interface.py:35` would raise `TypeError`, and `main.py:20` passes three arguments to a one-argument constructor. That wiring is not modelled.
- `ChatGptClient.ChatGPTClient.GenerateText`: a call with a `prompt` or `max_tokens` keyword argument raises `TypeError` in Python before the body runs. The method requires that no such keyword is given, and the `TypeError` is not modelled.
- The `input()` prompt strings ("\nYou: ", "New temperature: ", "New max tokens: ", "New width: ") are not part of the transcripts. An input line is only the text read.
- `TgptImageHandler.ImageHandler.GenerateVariation`: the `files={"image": image_file}` part of the upload is not in the returned request. The model keeps only the form, the headers and the URL, and the open file is the `readable` flag.
- `ApiKey.KeyPath`: an unset `HOME` is not modelled. There `expanduser` falls back to the password database. The home directory is a parameter.
- The configuration handlers, `main.py`, `tgpt/main.py`, `combine_files.py` and `setup.py` are not part of this model.
- Some repository tests disagree with the code, and the model follows the code. `test_commandline_interface.py` expects True for an invalid command, which returns None. `test_api_key_file.py` passes a file name to a constructor that takes none.
