/** gpt_client.py: the stand-alone chat client. `prompt` and `completions`
    build a request from their arguments alone and leave the history alone;
    `generate_text` sends the history with the request and, like the tgpt
    package's client, appends the user turn to the history list itself
    whenever that list is not empty. Nothing here catches an exception, so
    every failure reaches the caller. */
module GptClient {
  import opened Wrappers
  import opened PyText
  import opened PyDict
  import opened Http

  const EndpointCompletions := "https://api.openai.com/v1/chat/completions"

  /** The payload literal of `prompt`, before the optional keys. */
  function PromptLiteral(prompt: string, maxTokens: int, temperature: real, topP: Value): Dict {
    [("model", Str("gpt-3.5-turbo")), ("prompt", Str(prompt)), ("temperature", Float(temperature)),
     ("max_tokens", Int(maxTokens)), ("top_p", topP)]
  }

  /** `prompt`'s conditional insertions: `"stop"` when a stop is given,
      then `"messages"` when a chat log is given. */
  function WithOptionalKeys(payload: Dict, stop: Value, chatLog: Value): Dict {
    SetIf(SetIf(payload, stop != Null, "stop", stop), chatLog != Null, "messages", chatLog)
  }

  /** Added to a dict that has neither key, each optional key is present
      exactly when its argument is not `None`, goes after the existing keys
      and holds its argument; the other keys are left alone. */
  lemma OptionalKeys(payload: Dict, stop: Value, chatLog: Value)
    requires "stop" !in KeysOf(payload) && "messages" !in KeysOf(payload)
    ensures KeysOf(WithOptionalKeys(payload, stop, chatLog))
            == KeysOf(payload) + (if stop != Null then ["stop"] else []) + (if chatLog != Null then ["messages"] else [])
    ensures Get(WithOptionalKeys(payload, stop, chatLog), "stop") == (if stop != Null then Some(stop) else None)
    ensures Get(WithOptionalKeys(payload, stop, chatLog), "messages") == (if chatLog != Null then Some(chatLog) else None)
    ensures forall k :: k != "stop" && k != "messages" ==> Get(WithOptionalKeys(payload, stop, chatLog), k) == Get(payload, k)
  {
    var withStop := SetIf(payload, stop != Null, "stop", stop);
    SetIfNew(payload, stop != Null, "stop", stop);
    SetIfNew(withStop, chatLog != Null, "messages", chatLog);
    SetIfGet(payload, stop != Null, "stop", stop);
    SetIfGet(withStop, chatLog != Null, "messages", chatLog);
    GetSomeIffKey(payload, "stop");
    GetSomeIffKey(payload, "messages");
  }

  /** The payload `prompt` posts. */
  function PromptPayload(prompt: string, chatLog: Value, stop: Value, maxTokens: int, temperature: real,
                         topP: Value): Dict
  {
    WithOptionalKeys(PromptLiteral(prompt, maxTokens, temperature, topP), stop, chatLog)
  }

  /** `prompt`'s payload: five fixed keys, then `"stop"` exactly when a stop
      is given and `"messages"` exactly when a chat log is given; the model
      named is "gpt-3.5-turbo" whatever the client's model. */
  lemma PromptPayloadFields(prompt: string, chatLog: Value, stop: Value, maxTokens: int, temperature: real,
                            topP: Value)
    ensures var p := PromptPayload(prompt, chatLog, stop, maxTokens, temperature, topP);
            && KeysOf(p) == ["model", "prompt", "temperature", "max_tokens", "top_p"]
                            + (if stop != Null then ["stop"] else [])
                            + (if chatLog != Null then ["messages"] else [])
            && Get(p, "model") == Some(Str("gpt-3.5-turbo"))
            && Get(p, "prompt") == Some(Str(prompt))
            && Get(p, "max_tokens") == Some(Int(maxTokens))
            && Get(p, "stop") == (if stop != Null then Some(stop) else None)
            && Get(p, "messages") == (if chatLog != Null then Some(chatLog) else None)
  {
    var literal := PromptLiteral(prompt, maxTokens, temperature, topP);
    assert KeysOf(literal) == ["model", "prompt", "temperature", "max_tokens", "top_p"];
    GetAt(literal, 0); GetAt(literal, 1); GetAt(literal, 3);
    OptionalKeys(literal, stop, chatLog);
  }

  /** The payload literal of `completions`, before `"messages"` is added. */
  function CompletionsLiteral(model: string, maxTokens: int, temperature: real, topP: Value,
                              n: Value, presencePenalty: Value, frequencyPenalty: Value, stop: Value): Dict
  {
    [("model", Str(model)), ("temperature", Float(temperature)), ("max_tokens", Int(maxTokens)),
     ("top_p", topP), ("n", n), ("presence_penalty", presencePenalty),
     ("frequency_penalty", frequencyPenalty), ("stop", stop)]
  }

  /** The payload `completions` posts: the literal, then `"messages"` holding
      the single user turn. */
  function CompletionsPayload(model: string, prompt: string, maxTokens: int, temperature: real, topP: Value,
                              n: Value, presencePenalty: Value, frequencyPenalty: Value, stop: Value): Dict
  {
    Set(CompletionsLiteral(model, maxTokens, temperature, topP, n, presencePenalty, frequencyPenalty, stop),
        "messages", Messages([Message(User, prompt)]))
  }

  /** The `completions` payload has the eight literal keys, `"stop"` among
      them whatever its value, and `"messages"` last with only the prompt;
      the history plays no part in it. */
  lemma CompletionsPayloadFields(model: string, prompt: string, maxTokens: int, temperature: real, topP: Value,
                                 n: Value, presencePenalty: Value, frequencyPenalty: Value, stop: Value)
    ensures var p := CompletionsPayload(model, prompt, maxTokens, temperature, topP, n,
                                        presencePenalty, frequencyPenalty, stop);
            && KeysOf(p) == ["model", "temperature", "max_tokens", "top_p", "n", "presence_penalty",
                             "frequency_penalty", "stop", "messages"]
            && Get(p, "model") == Some(Str(model))
            && Get(p, "stop") == Some(stop)
            && Get(p, "n") == Some(n)
            && Get(p, "messages") == Some(Messages([Message(User, prompt)]))
  {
    var literal := CompletionsLiteral(model, maxTokens, temperature, topP, n, presencePenalty, frequencyPenalty, stop);
    var keys := ["model", "temperature", "max_tokens", "top_p", "n", "presence_penalty", "frequency_penalty", "stop"];
    assert KeysOf(literal) == keys;
    assert "messages" !in keys;
    SetKeys(literal, "messages", Messages([Message(User, prompt)]));
    SetGet(literal, "messages", Messages([Message(User, prompt)]));
    CompletionsLiteralFields(model, maxTokens, temperature, topP, n, presencePenalty, frequencyPenalty, stop);
  }

  /** The literal's `"model"`, `"n"` and `"stop"` hold their arguments. */
  lemma CompletionsLiteralFields(model: string, maxTokens: int, temperature: real, topP: Value,
                                 n: Value, presencePenalty: Value, frequencyPenalty: Value, stop: Value)
    ensures var literal := CompletionsLiteral(model, maxTokens, temperature, topP, n, presencePenalty,
                                              frequencyPenalty, stop);
            && Get(literal, "model") == Some(Str(model))
            && Get(literal, "n") == Some(n)
            && Get(literal, "stop") == Some(stop)
  {
    var literal := CompletionsLiteral(model, maxTokens, temperature, topP, n, presencePenalty, frequencyPenalty, stop);
    GetAt(literal, 0); GetAt(literal, 4); GetAt(literal, 7);
  }

  /** `for i in range(n): results.append(completions[i]["message"]["content"])`:
      the contents of the first `n` choices, or the first exception the
      indexing raises. */
  function FirstContents(choices: seq<Choice>, n: int): (r: Result<seq<string>, Error>)
    ensures r.Ok? <==> n <= |choices| && forall i :: 0 <= i < n ==> choices[i].content.Some?
    ensures r.Ok? ==> |r.value| == (if n < 0 then 0 else n)
    ensures r.Ok? ==> forall i :: 0 <= i < |r.value| ==> r.value[i] == choices[i].content.value
    ensures r.Err? ==> r.error in {IndexError, KeyError}
    decreases n
  {
    if n <= 0 then Ok([])
    else
      match FirstContents(choices, n - 1)
      case Err(e) => Err(e)
      case Ok(prefix) =>
        if n - 1 >= |choices| then Err(IndexError)
        else
          match choices[n - 1].content
          case None => Err(KeyError)
          case Some(c) => Ok(prefix + [c])
  }

  /** Once the loop has raised, running it longer raises the same. */
  lemma {:induction false} FirstContentsStaysFailed(choices: seq<Choice>, i: int, m: int)
    requires i <= m
    requires FirstContents(choices, i).Err?
    ensures FirstContents(choices, m) == FirstContents(choices, i)
    decreases m - i
  {
    if i < m {
      FirstContentsStaysFailed(choices, i, m - 1);
    }
  }

  /** A missing content is reported as `KeyError` exactly when it comes
      before the end of the list. */
  lemma {:induction false} FirstContentsKeyError(choices: seq<Choice>, n: int)
    ensures FirstContents(choices, n) == Err(KeyError)
            <==> exists i :: (0 <= i < n && i < |choices| && choices[i].content.None?
                              && forall j :: 0 <= j < i ==> choices[j].content.Some?)
    decreases n
  {
    if n > 0 {
      FirstContentsKeyError(choices, n - 1);
      if FirstContents(choices, n - 1).Ok? && n - 1 < |choices| && choices[n - 1].content.None? {
        assert forall j :: 0 <= j < n - 1 ==> choices[j].content.Some?;
      }
    }
  }

  /** What `completions` produces for `response`: a status other than 200
      raises `ValueError` before anything is decoded. */
  function CompletionsResult(response: Response<seq<Choice>>, n: int): (r: Result<seq<string>, Error>)
    ensures response.ConnectionError? ==> r == Err(RequestException)
    ensures response.Answered? && response.status != 200 ==> r == Err(ValueError)
    ensures response.Answered? && response.status == 200 && response.body.Found?
            ==> r == FirstContents(response.body.member, n)
    ensures response.Answered? && response.status == 200 && response.body.NotJson? ==> r == Err(JSONDecodeError)
    ensures response.Answered? && response.status == 200 && response.body.Missing? ==> r == Err(KeyError)
  {
    match response
    case ConnectionError => Err(RequestException)
    case Answered(status, body) =>
      if status != 200 then Err(ValueError)
      else
        match Member(body)
        case Err(e) => Err(e)
        case Ok(choices) => FirstContents(choices, n)
  }

  /** The payload literal of `generate_text`, with `"messages"` still empty. */
  function GenerateTextLiteral(model: string, maxTokens: int, temperature: real, topP: Value,
                               frequencyPenalty: Value, presencePenalty: Value): Dict
  {
    [("model", Str(model)), ("messages", Messages([])), ("max_tokens", Int(maxTokens)),
     ("temperature", Float(temperature)), ("top_p", topP),
     ("frequency_penalty", frequencyPenalty), ("presence_penalty", presencePenalty)]
  }

  /** The payload `generate_text` posts, `"messages"` filled in. */
  function GenerateTextPayload(model: string, messages: seq<Message>, maxTokens: int, temperature: real,
                               topP: Value, frequencyPenalty: Value, presencePenalty: Value): Dict
  {
    Set(GenerateTextLiteral(model, maxTokens, temperature, topP, frequencyPenalty, presencePenalty),
        "messages", Messages(messages))
  }

  /** The `generate_text` payload keeps the literal's seven keys in order and
      carries the turns it was given and the client's settings. */
  lemma GenerateTextPayloadFields(model: string, messages: seq<Message>, maxTokens: int, temperature: real,
                                  topP: Value, frequencyPenalty: Value, presencePenalty: Value)
    ensures var p := GenerateTextPayload(model, messages, maxTokens, temperature, topP,
                                         frequencyPenalty, presencePenalty);
            && KeysOf(p) == ["model", "messages", "max_tokens", "temperature", "top_p",
                             "frequency_penalty", "presence_penalty"]
            && Get(p, "model") == Some(Str(model))
            && Get(p, "messages") == Some(Messages(messages))
            && Get(p, "max_tokens") == Some(Int(maxTokens))
            && Get(p, "temperature") == Some(Float(temperature))
  {
    var literal := GenerateTextLiteral(model, maxTokens, temperature, topP, frequencyPenalty, presencePenalty);
    assert KeysOf(literal) == ["model", "messages", "max_tokens", "temperature", "top_p",
                               "frequency_penalty", "presence_penalty"];
    assert KeysOf(literal)[1] == "messages";
    SetKeys(literal, "messages", Messages(messages));
    GenerateTextLiteralFields(model, maxTokens, temperature, topP, frequencyPenalty, presencePenalty);
  }

  /** The literal's `"model"`, `"max_tokens"` and `"temperature"` hold the
      client's settings. */
  lemma GenerateTextLiteralFields(model: string, maxTokens: int, temperature: real, topP: Value,
                                  frequencyPenalty: Value, presencePenalty: Value)
    ensures var literal := GenerateTextLiteral(model, maxTokens, temperature, topP, frequencyPenalty, presencePenalty);
            && Get(literal, "model") == Some(Str(model))
            && Get(literal, "max_tokens") == Some(Int(maxTokens))
            && Get(literal, "temperature") == Some(Float(temperature))
  {
    var literal := GenerateTextLiteral(model, maxTokens, temperature, topP, frequencyPenalty, presencePenalty);
    GetAt(literal, 0); GetAt(literal, 2); GetAt(literal, 3);
  }

  /** `choices[0]["message"]["content"].strip()`: the stripped first content
      of an answer that passed `raise_for_status()`, or the exception. */
  function FirstContentStripped(response: Response<seq<Choice>>): (r: Result<string, Error>)
    ensures r.Ok? <==> FirstChoice(response).Ok? && FirstChoice(response).value.content.Some?
    ensures r.Ok? ==> r.value == Strip(FirstChoice(response).value.content.value)
    ensures FirstChoice(response).Err? ==> r == Err(FirstChoice(response).error)
    ensures FirstChoice(response).Ok? && FirstChoice(response).value.content.None? ==> r == Err(KeyError)
  {
    match FirstChoice(response)
    case Err(e) => Err(e)
    case Ok(c) =>
      match Present(c.content)
      case Err(e) => Err(e)
      case Ok(s) => Ok(Strip(s))
  }

  /** `self.chat_history` after `generate_text(prompt)`: the aliasing append
      of the user turn when the history was not empty, then a user/assistant
      pair holding the stripped content when the call succeeded. */
  function HistoryAfterGenerate(h: seq<Message>, prompt: string, response: Response<seq<Choice>>): seq<Message> {
    var aliased := if h != [] then h + [Message(User, prompt)] else h;
    match FirstContentStripped(response)
    case Ok(text) => aliased + [Message(User, prompt), Message(Assistant, text)]
    case Err(_) => aliased
  }

  /** The stand-alone client. `chatHistory` is one list object for the
      client's life; `temperature` and `maxTokens` are plain fields. */
  class GPTClient {
    const apiKey: string
    const endpointCompletions: string
    const model: string
    const chatHistory: ListRef<Message>
    const headers: Dict
    var temperature: real
    var maxTokens: int

    /** `GPTClient(api_key, model="gpt-3.5-turbo")`: empty history,
        temperature 0.5 and max_tokens 100. */
    constructor (apiKey: string, model: string := "gpt-3.5-turbo")
      ensures this.apiKey == apiKey && this.model == model
      ensures endpointCompletions == EndpointCompletions
      ensures fresh(chatHistory) && chatHistory.items == []
      ensures headers == JsonHeaders(apiKey)
      ensures temperature == 0.5 && maxTokens == 100
    {
      this.apiKey := apiKey;
      endpointCompletions := EndpointCompletions;
      this.model := model;
      chatHistory := new ListRef<Message>();
      headers := JsonHeaders(apiKey);
      temperature := 0.5;
      maxTokens := 100;
    }

    /** `prompt(prompt, chat_log=None, stop=None, max_tokens=100,
        temperature=0.5, top_p=1)`: the model named in the payload is always
        "gpt-3.5-turbo", `"stop"` and `"messages"` are added only when given,
        and the result is the stripped text of the first choice. */
    method Prompt(prompt: string, response: Response<seq<Choice>>, chatLog: Value := Null, stop: Value := Null,
                  maxTokens: int := 100, temperature: real := 0.5, topP: Value := Int(1))
      returns (result: Result<string, Error>, sent: Request)
      ensures sent == Request(endpointCompletions, JsonHeaders(apiKey),
                              PromptPayload(prompt, chatLog, stop, maxTokens, temperature, topP))
      ensures FirstChoice(response).Err? ==> result == Err(FirstChoice(response).error)
      ensures FirstChoice(response).Ok? ==>
        result == (match FirstChoice(response).value.text
                   case None => Err(KeyError)
                   case Some(t) => Ok(Strip(t)))
    {
      var payload := PromptLiteral(prompt, maxTokens, temperature, topP);
      if stop != Null {
        payload := Set(payload, "stop", stop);
      }
      if chatLog != Null {
        payload := Set(payload, "messages", chatLog);
      }
      sent := Request(endpointCompletions, JsonHeaders(apiKey), payload);
      var choice := FirstChoice(response);
      if choice.Err? {
        return Err(choice.error), sent;
      }
      var text := Present(choice.value.text);
      if text.Err? {
        return Err(text.error), sent;
      }
      result := Ok(Strip(text.value));
    }

    /** `completions(prompt, max_tokens=100, temperature=0.7, top_p=1,
        presence_penalty=0, frequency_penalty=0, stop=None, n=1)`: one user
        turn, no history, and the contents of the first `n` choices. */
    method Completions(prompt: string, response: Response<seq<Choice>>, maxTokens: int := 100,
                       temperature: real := 0.7, topP: Value := Int(1), presencePenalty: Value := Int(0),
                       frequencyPenalty: Value := Int(0), stop: Value := Null, n: int := 1)
      returns (result: Result<seq<string>, Error>, sent: Request)
      ensures sent == Request(endpointCompletions, JsonHeaders(apiKey),
                              CompletionsPayload(model, prompt, maxTokens, temperature, topP, Int(n),
                                                 presencePenalty, frequencyPenalty, stop))
      ensures result == CompletionsResult(response, n)
    {
      var data := CompletionsPayload(model, prompt, maxTokens, temperature, topP, Int(n),
                                     presencePenalty, frequencyPenalty, stop);
      sent := Request(endpointCompletions, JsonHeaders(apiKey), data);
      if response.ConnectionError? {
        return Err(RequestException), sent;
      }
      if response.status != 200 {
        return Err(ValueError), sent;
      }
      var body := Member(response.body);
      if body.Err? {
        return Err(body.error), sent;
      }
      var completions := body.value;
      var results: seq<string> := [];
      var i := 0;
      while i < n
        invariant 0 <= i && (i == 0 || i <= n)
        invariant FirstContents(completions, i) == Ok(results)
        decreases n - i
      {
        if i >= |completions| {
          FirstContentsStaysFailed(completions, i + 1, n);
          return Err(IndexError), sent;
        }
        var content := Present(completions[i].content);
        if content.Err? {
          FirstContentsStaysFailed(completions, i + 1, n);
          return Err(KeyError), sent;
        }
        results := results + [content.value];
        i := i + 1;
      }
      result := Ok(results);
    }

    /** `generate_text(prompt, top_p=1, frequency_penalty=0,
        presence_penalty=0)`. The request carries the old history and the
        user turn; a non-empty history receives that turn before the request
        goes out, and keeps it when the call then raises. On success the
        stripped first content is returned and a user/assistant pair with it
        is appended. */
    method GenerateText(prompt: string, response: Response<seq<Choice>>, topP: Value := Int(1),
                        frequencyPenalty: Value := Int(0), presencePenalty: Value := Int(0))
      returns (result: Result<string, Error>, sent: Request)
      modifies chatHistory
      ensures sent == Request(endpointCompletions, headers,
                              GenerateTextPayload(model, old(chatHistory.items) + [Message(User, prompt)],
                                                  maxTokens, temperature, topP, frequencyPenalty, presencePenalty))
      ensures result == FirstContentStripped(response)
      ensures chatHistory.items == HistoryAfterGenerate(old(chatHistory.items), prompt, response)
    {
      var messages: seq<Message>;
      if chatHistory.items != [] {
        var history := chatHistory;
        history.Append(Message(User, prompt));
        messages := history.items;
      } else {
        messages := [Message(User, prompt)];
        assert chatHistory.items + messages == messages;
      }
      sent := Request(endpointCompletions, headers,
                      GenerateTextPayload(model, messages, maxTokens, temperature, topP,
                                          frequencyPenalty, presencePenalty));
      var choice := FirstChoice(response);
      if choice.Err? {
        return Err(choice.error), sent;
      }
      var content := Present(choice.value.content);
      if content.Err? {
        return Err(content.error), sent;
      }
      var text := Strip(content.value);
      AddToChatHistory(prompt, text);
      result := Ok(text);
    }

    /** `add_to_chat_history(prompt, response)`: exactly a user turn, then an
        assistant turn, after the unchanged earlier ones. */
    method AddToChatHistory(prompt: string, response: string)
      modifies chatHistory
      ensures chatHistory.items == old(chatHistory.items) + [Message(User, prompt), Message(Assistant, response)]
    {
      chatHistory.Append(Message(User, prompt));
      chatHistory.Append(Message(Assistant, response));
    }

    /** `get_chat_history`: the client's own list object. */
    function GetChatHistory(): (h: ListRef<Message>)
      ensures h == chatHistory
    {
      chatHistory
    }
  }

  /** The outcomes of `generate_text` in the source's terms: a failure
      leaves an empty history empty and a non-empty one with the user turn
      added; a success stores the user turn twice after a non-empty
      history. */
  lemma GenerateTextCases(h: seq<Message>, prompt: string, response: Response<seq<Choice>>)
    ensures FirstContentStripped(response).Err? ==>
      HistoryAfterGenerate(h, prompt, response) == (if h == [] then [] else h + [Message(User, prompt)])
    ensures FirstContentStripped(response).Ok? ==>
      var c := FirstContentStripped(response).value;
      HistoryAfterGenerate(h, prompt, response)
      == (if h == [] then [Message(User, prompt), Message(Assistant, c)]
          else h + [Message(User, prompt), Message(User, prompt), Message(Assistant, c)])
  {
    var r := FirstContentStripped(response);
    if r.Ok? && h != [] {
      var u, a := Message(User, prompt), Message(Assistant, r.value);
      assert h + [u] + [u, a] == h + [u, u, a];
    }
  }

  /** However the calls go, the history only grows. */
  lemma HistoryAfterGenerateGrows(h: seq<Message>, prompt: string, response: Response<seq<Choice>>)
    ensures h <= HistoryAfterGenerate(h, prompt, response)
    ensures |HistoryAfterGenerate(h, prompt, response)| <= |h| + 3
  {
  }

  /** `completions` returns exactly the first `n` contents when the server
      returned at least `n` choices that all have one. */
  lemma CompletionsTakesFirstN(choices: seq<Choice>, n: nat)
    requires n <= |choices|
    requires forall i :: 0 <= i < |choices| ==> choices[i].content.Some?
    ensures CompletionsResult(Answered(200, Found(choices)), n).Ok?
    ensures var r := CompletionsResult(Answered(200, Found(choices)), n).value;
            |r| == n && forall i :: 0 <= i < n ==> r[i] == choices[i].content.value
  {
  }

  /** Asking for more completions than the server returned raises
      `IndexError`, when every returned choice has a content. */
  lemma CompletionsTooFew(choices: seq<Choice>, n: int)
    requires |choices| < n
    requires forall i :: 0 <= i < |choices| ==> choices[i].content.Some?
    ensures CompletionsResult(Answered(200, Found(choices)), n) == Err(IndexError)
  {
    FirstContentsKeyError(choices, n);
  }
}
