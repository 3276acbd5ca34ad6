/** tgpt/gpt_client.py: the chat-completion client of the tgpt package. It
    keeps the conversation in a list object and sends it with every request.

    When the history is not empty, the request's `messages` is the history
    list itself, and the new user turn is appended to it before the request
    goes out. A successful call then appends the user turn and the answer,
    so the user turn is stored twice. */
module TgptClient {
  import opened Wrappers
  import opened PyDict
  import opened Http
  import TgptImageHandler

  const EndpointCompletions := "https://api.openai.com/v1/chat/completions"

  /** The payload literal `completion` starts from, with `"messages"`
      still empty. */
  function CompletionLiteral(model: string, maxTokens: int, temperature: real, topP: Value,
                             frequencyPenalty: Value, presencePenalty: Value, n: int, stop: Value): Dict
  {
    [("model", Str(model)), ("messages", Messages([])), ("max_tokens", Int(maxTokens)),
     ("temperature", Float(temperature)), ("top_p", topP),
     ("frequency_penalty", frequencyPenalty), ("presence_penalty", presencePenalty),
     ("n", Int(n)), ("stop", stop)]
  }

  /** The payload `completion` posts: the literal with `"messages"` set. */
  function CompletionPayload(model: string, messages: seq<Message>, maxTokens: int, temperature: real,
                             topP: Value, frequencyPenalty: Value, presencePenalty: Value,
                             n: int, stop: Value): Dict
  {
    Set(CompletionLiteral(model, maxTokens, temperature, topP, frequencyPenalty, presencePenalty, n, stop),
        "messages", Messages(messages))
  }

  /** Each key of the literal other than `"messages"` holds its value. */
  lemma CompletionLiteralFields(model: string, maxTokens: int, temperature: real, topP: Value,
                                frequencyPenalty: Value, presencePenalty: Value, n: int, stop: Value)
    ensures var literal := CompletionLiteral(model, maxTokens, temperature, topP, frequencyPenalty,
                                             presencePenalty, n, stop);
            && Get(literal, "model") == Some(Str(model))
            && Get(literal, "max_tokens") == Some(Int(maxTokens))
            && Get(literal, "temperature") == Some(Float(temperature))
            && Get(literal, "top_p") == Some(topP)
            && Get(literal, "frequency_penalty") == Some(frequencyPenalty)
            && Get(literal, "presence_penalty") == Some(presencePenalty)
            && Get(literal, "n") == Some(Int(n))
            && Get(literal, "stop") == Some(stop)
  {
    var literal := CompletionLiteral(model, maxTokens, temperature, topP, frequencyPenalty, presencePenalty, n, stop);
    GetAt(literal, 0); GetAt(literal, 2); GetAt(literal, 3); GetAt(literal, 4);
    GetAt(literal, 5); GetAt(literal, 6); GetAt(literal, 7); GetAt(literal, 8);
  }

  /** Every field of the posted payload holds what the caller and the client
      supplied, `"messages"` the turns it was given. */
  lemma CompletionPayloadFields(model: string, messages: seq<Message>, maxTokens: int, temperature: real,
                                topP: Value, frequencyPenalty: Value, presencePenalty: Value,
                                n: int, stop: Value)
    ensures var p := CompletionPayload(model, messages, maxTokens, temperature, topP, frequencyPenalty,
                                       presencePenalty, n, stop);
            && Get(p, "model") == Some(Str(model))
            && Get(p, "messages") == Some(Messages(messages))
            && Get(p, "max_tokens") == Some(Int(maxTokens))
            && Get(p, "temperature") == Some(Float(temperature))
            && Get(p, "top_p") == Some(topP)
            && Get(p, "frequency_penalty") == Some(frequencyPenalty)
            && Get(p, "presence_penalty") == Some(presencePenalty)
            && Get(p, "n") == Some(Int(n))
            && Get(p, "stop") == Some(stop)
  {
    var literal := CompletionLiteral(model, maxTokens, temperature, topP, frequencyPenalty, presencePenalty, n, stop);
    CompletionLiteralFields(model, maxTokens, temperature, topP, frequencyPenalty, presencePenalty, n, stop);
    SetGet(literal, "messages", Messages(messages));
  }

  /** The posted payload has exactly the literal's nine keys, in the
      literal's order: filling in `"messages"` replaces a value and moves
      nothing. */
  lemma CompletionPayloadKeys(model: string, messages: seq<Message>, maxTokens: int, temperature: real,
                              topP: Value, frequencyPenalty: Value, presencePenalty: Value,
                              n: int, stop: Value)
    ensures KeysOf(CompletionPayload(model, messages, maxTokens, temperature, topP, frequencyPenalty,
                                     presencePenalty, n, stop))
            == ["model", "messages", "max_tokens", "temperature", "top_p",
                "frequency_penalty", "presence_penalty", "n", "stop"]
  {
    var literal := CompletionLiteral(model, maxTokens, temperature, topP, frequencyPenalty, presencePenalty, n, stop);
    assert KeysOf(literal) == ["model", "messages", "max_tokens", "temperature", "top_p",
                               "frequency_penalty", "presence_penalty", "n", "stop"];
    assert KeysOf(literal)[1] == "messages";
    SetKeys(literal, "messages", Messages(messages));
  }

  /** `[choice['message']['content'] for choice in result['choices']]`:
      every choice's content in the server's order, or `None` for the
      `KeyError` raised when some choice has none. */
  function ChoiceContents(choices: seq<Choice>): (r: Option<seq<string>>)
    ensures r.Some? <==> forall i :: 0 <= i < |choices| ==> choices[i].content.Some?
    ensures r.Some? ==> |r.value| == |choices|
    ensures r.Some? ==> forall i :: 0 <= i < |choices| ==> r.value[i] == choices[i].content.value
  {
    if choices == [] then Some([])
    else
      match (choices[0].content, ChoiceContents(choices[1..]))
      case (Some(c), Some(rest)) => Some([c] + rest)
      case _ => None
  }

  /** The texts of a response that survives the request, the status check,
      the JSON decoding and the comprehension; `None` when any of them
      raises. */
  function ResponseContents(response: Response<seq<Choice>>): Option<seq<string>> {
    match Checked(response)
    case Err(_) => None
    case Ok(body) =>
      match Member(body)
      case Err(_) => None
      case Ok(choices) => ChoiceContents(choices)
  }

  /** What `completion` returns for `response`: the texts, or `[]` when
      anything failed. With zero choices the texts are `[]` as well, since the
      `IndexError` in `add_to_chat_history` is caught and `[]` returned. */
  function CompletionText(response: Response<seq<Choice>>): seq<string> {
    match ResponseContents(response)
    case Some(texts) => texts
    case None => []
  }

  /** `self.chat_history` after `completion(prompt)`: the aliasing append of
      the user turn when the history was not empty, then a user/assistant
      pair holding the first text when the call succeeded with at least one
      choice. */
  function HistoryAfterCompletion(h: seq<Message>, prompt: string, response: Response<seq<Choice>>): seq<Message> {
    var aliased := if h != [] then h + [Message(User, prompt)] else h;
    match ResponseContents(response)
    case Some(texts) =>
      if texts != [] then aliased + [Message(User, prompt), Message(Assistant, texts[0])] else aliased
    case None => aliased
  }

  /** What `add_to_chat_history` is given: one text, or a list of texts. */
  datatype Reply = Text(s: string) | Texts(items: seq<string>)

  /** The chat client of the tgpt package. `chatHistory` is one list object
      for the client's whole life; `maxTokens` and `temperature` are the
      fields the setters assign. */
  class GPTClient {
    const apiKey: string
    const endpointCompletions: string
    const model: string
    const chatHistory: ListRef<Message>
    const headers: Dict
    const imageHandler: TgptImageHandler.ImageHandler
    var maxTokens: int
    var temperature: real

    /** `GPTClient(api_key, model="gpt-3.5-turbo", max_tokens=100, temperature=0.7)`. */
    constructor (apiKey: string, model: string := "gpt-3.5-turbo", maxTokens: int := 100, temperature: real := 0.7)
      ensures this.apiKey == apiKey && this.model == model
      ensures this.maxTokens == maxTokens && this.temperature == temperature
      ensures fresh(chatHistory) && chatHistory.items == []
      ensures endpointCompletions == EndpointCompletions
      ensures headers == JsonHeaders(apiKey)
      ensures imageHandler == TgptImageHandler.ImageHandler(apiKey)
    {
      this.apiKey := apiKey;
      endpointCompletions := EndpointCompletions;
      this.model := model;
      chatHistory := new ListRef<Message>();
      headers := JsonHeaders(apiKey);
      imageHandler := TgptImageHandler.ImageHandler(apiKey);
      this.maxTokens := maxTokens;
      this.temperature := temperature;
    }

    /** `completion(prompt, n=1, top_p=1, frequency_penalty=0,
        presence_penalty=0, stop=None)`, with the server's answer given as
        `response` and the request the client posts returned as `sent`. The
        request carries the old history followed by the user turn, and the
        client's current model, max_tokens and temperature; `n` and `stop`
        are passed through untouched. */
    method Completion(prompt: string, response: Response<seq<Choice>>, n: int := 1, topP: Value := Int(1),
                      frequencyPenalty: Value := Int(0), presencePenalty: Value := Int(0), stop: Value := Null)
      returns (text: seq<string>, sent: Request)
      modifies chatHistory
      ensures sent == Request(endpointCompletions, headers,
                              CompletionPayload(model, old(chatHistory.items) + [Message(User, prompt)],
                                                maxTokens, temperature, topP, frequencyPenalty,
                                                presencePenalty, n, stop))
      ensures text == CompletionText(response)
      ensures chatHistory.items == HistoryAfterCompletion(old(chatHistory.items), prompt, response)
    {
      var messages: seq<Message>;
      if chatHistory.items != [] {
        var history := chatHistory;
        history.Append(Message(User, prompt));
        messages := history.items;
      } else {
        messages := [Message(User, prompt)];
        assert chatHistory.items + messages == messages;
      }
      sent := Request(endpointCompletions, headers,
                      CompletionPayload(model, messages, maxTokens, temperature, topP,
                                        frequencyPenalty, presencePenalty, n, stop));
      var checked := Checked(response);
      if checked.Err? {
        return [], sent;
      }
      var choices := Member(checked.value);
      if choices.Err? {
        return [], sent;
      }
      var contents := ChoiceContents(choices.value);
      if contents.None? {
        return [], sent;
      }
      var raised := AddToChatHistory(prompt, Texts(contents.value));
      if raised.Some? {
        return [], sent;
      }
      text := contents.value;
    }

    /** `set_max_tokens`: assigns max_tokens and nothing else. */
    method SetMaxTokens(maxTokens: int)
      modifies this`maxTokens
      ensures this.maxTokens == maxTokens
    {
      this.maxTokens := maxTokens;
    }

    /** `get_max_tokens`. */
    function GetMaxTokens(): (m: int)
      reads this
      ensures m == maxTokens
    {
      maxTokens
    }

    /** `set_temperature`: assigns temperature and nothing else. */
    method SetTemperature(temperature: real)
      modifies this`temperature
      ensures this.temperature == temperature
    {
      this.temperature := temperature;
    }

    /** `get_temperature`. */
    function GetTemperature(): (t: real)
      reads this
      ensures t == temperature
    {
      temperature
    }

    /** `get_model`. */
    function GetModel(): (m: string)
      ensures m == model
    {
      model
    }

    /** `get_chat_history`: the client's own list object, not a copy, so the
        caller sees every later append. */
    function GetChatHistory(): (h: ListRef<Message>)
      ensures h == chatHistory
    {
      chatHistory
    }

    /** `add_to_chat_history(prompt, response)`: keeps only element 0 of a
        list and appends the user turn, then the assistant turn. An empty
        list raises `IndexError` before either append. */
    method AddToChatHistory(prompt: string, response: Reply) returns (raised: Option<Error>)
      modifies chatHistory
      ensures raised.Some? <==> response == Texts([])
      ensures raised.Some? ==> raised.value == IndexError && chatHistory.items == old(chatHistory.items)
      ensures raised.None? ==>
        chatHistory.items == old(chatHistory.items)
          + [Message(User, prompt),
             Message(Assistant, if response.Text? then response.s else response.items[0])]
    {
      var content: string;
      match response {
        case Text(s) => content := s;
        case Texts(items) =>
          if items == [] {
            return Some(IndexError);
          }
          content := items[0];
      }
      chatHistory.Append(Message(User, prompt));
      chatHistory.Append(Message(Assistant, content));
      raised := None;
    }
  }

  /** The three outcomes of a call, in the source's terms. */
  lemma CompletionCases(h: seq<Message>, prompt: string, response: Response<seq<Choice>>)
    ensures ResponseContents(response).None? ==>
      && CompletionText(response) == []
      && HistoryAfterCompletion(h, prompt, response) == (if h == [] then [] else h + [Message(User, prompt)])
    ensures ResponseContents(response) == Some([]) ==>
      && CompletionText(response) == []
      && HistoryAfterCompletion(h, prompt, response) == (if h == [] then [] else h + [Message(User, prompt)])
    ensures ResponseContents(response).Some? && ResponseContents(response).value != [] ==>
      var c := ResponseContents(response).value[0];
      && CompletionText(response) == ResponseContents(response).value
      && HistoryAfterCompletion(h, prompt, response)
         == (if h == [] then [Message(User, prompt), Message(Assistant, c)]
             else h + [Message(User, prompt), Message(User, prompt), Message(Assistant, c)])
  {
  }

  /** On a 2xx-or-3xx answer whose every choice has a content, `completion`
      returns one text per choice, in the server's order, however many
      choices `n` asked for. */
  lemma ResultFollowsChoices(status: int, choices: seq<Choice>)
    requires IsOk(status)
    requires forall i :: 0 <= i < |choices| ==> choices[i].content.Some?
    ensures |CompletionText(Answered(status, Found(choices)))| == |choices|
    ensures forall i :: 0 <= i < |choices| ==> CompletionText(Answered(status, Found(choices)))[i] == choices[i].content.value
  {
  }

  /** What a setter stores is what the next request carries. */
  method SettersReachPayload(client: GPTClient, maxTokens: int, temperature: real, prompt: string,
                             response: Response<seq<Choice>>)
    returns (sent: Request)
    modifies client, client.chatHistory
    ensures Get(sent.body, "max_tokens") == Some(Int(maxTokens))
    ensures Get(sent.body, "temperature") == Some(Float(temperature))
  {
    client.SetMaxTokens(maxTokens);
    client.SetTemperature(temperature);
    ghost var messages := client.chatHistory.items + [Message(User, prompt)];
    var text;
    text, sent := client.Completion(prompt, response);
    CompletionPayloadFields(client.model, messages, maxTokens, temperature, Int(1), Int(0), Int(0), 1, Null);
  }

  /** One call of `completion`: the prompt and the server's answer to it. */
  datatype Call = Call(prompt: string, response: Response<seq<Choice>>)

  /** The history after a series of calls on one client. */
  function HistoryAfterCalls(h: seq<Message>, calls: seq<Call>): seq<Message>
    decreases |calls|
  {
    if calls == [] then h
    else HistoryAfterCalls(HistoryAfterCompletion(h, calls[0].prompt, calls[0].response), calls[1..])
  }

  /** A call whose answer yields at least one text. */
  predicate Succeeds(c: Call) {
    ResponseContents(c.response).Some? && ResponseContents(c.response).value != []
  }

  /** The history only grows: whatever the answers, earlier turns stay as
      they were and in place. */
  lemma {:induction false} HistoryOnlyGrows(h: seq<Message>, calls: seq<Call>)
    ensures h <= HistoryAfterCalls(h, calls)
    decreases |calls|
  {
    if calls != [] {
      var next := HistoryAfterCompletion(h, calls[0].prompt, calls[0].response);
      HistoryOnlyGrows(next, calls[1..]);
    }
  }

  /** From a fresh client, `k` successful calls leave `3k - 1` turns, not the
      `2k` one user/assistant pair per call would give: the first call adds
      two turns and every later one three. */
  lemma FreshHistoryLength(calls: seq<Call>)
    requires |calls| >= 1
    requires forall i :: 0 <= i < |calls| ==> Succeeds(calls[i])
    ensures |HistoryAfterCalls([], calls)| == 3 * |calls| - 1
  {
    var first := HistoryAfterCompletion([], calls[0].prompt, calls[0].response);
    assert |first| == 2;
    LaterCallsAddThree(first, calls[1..]);
  }

  /** Each successful call on a non-empty history adds exactly three turns. */
  lemma {:induction false} LaterCallsAddThree(h: seq<Message>, calls: seq<Call>)
    requires h != []
    requires forall i :: 0 <= i < |calls| ==> Succeeds(calls[i])
    ensures |HistoryAfterCalls(h, calls)| == |h| + 3 * |calls|
    decreases |calls|
  {
    if calls != [] {
      var next := HistoryAfterCompletion(h, calls[0].prompt, calls[0].response);
      assert Succeeds(calls[0]);
      assert |next| == |h| + 3;
      LaterCallsAddThree(next, calls[1..]);
    }
  }
}
