/** chat_gpt_client.py: the completions client built around an engine
    name. `completions` grows its request body by conditional insertions and
    names the engine last; `generate_text` posts to the engine's own URL
    with a body the caller's keyword arguments may override; the history is
    a list the caller appends whole messages to. */
module ChatGptClient {
  import opened Wrappers
  import opened PyText
  import opened PyDict
  import opened Http

  const Endpoint := "https://api.openai.com/v1/"
  const DefaultEngine := "text-davinci-002"

  /** The result of `prompt`: the first choice's text stripped, or "" when
      that text is empty. The test for emptiness changes nothing, since
      stripping "" gives "", and the result is empty exactly when the text
      is all whitespace. */
  function PromptReply(text: string): (r: string)
    ensures r == Strip(text)
    ensures r == "" <==> AllSpace(text)
  {
    StripEmptyIffAllSpace(text);
    if text != "" then Strip(text) else ""
  }

  /** The six keys `completions` always sends. */
  function CompletionsBase(prompt: string, maxTokens: Value, temperature: Value, topP: Value,
                           frequencyPenalty: Value, presencePenalty: Value): Dict
  {
    [("prompt", Str(prompt)), ("max_tokens", maxTokens), ("temperature", temperature), ("top_p", topP),
     ("frequency_penalty", frequencyPenalty), ("presence_penalty", presencePenalty)]
  }

  /** The six conditional insertions of `completions`, in the source's order:
      `stop`, `n`, `logprobs` and `engine` when not `None`, `echo` and
      `stream` when truthy. */
  function Options(stop: Value, echo: Value, n: Value, stream: Value, logprobs: Value, engine: Value)
    : seq<Insertion>
  {
    [Insertion("stop", stop != Null, stop), Insertion("echo", Truthy(echo), echo),
     Insertion("n", n != Null, n), Insertion("stream", Truthy(stream), stream),
     Insertion("logprobs", logprobs != Null, logprobs), Insertion("engine", engine != Null, engine)]
  }

  /** The body `completions` posts: the base, the options, then `"model"`. */
  function CompletionsData(prompt: string, maxTokens: Value, temperature: Value, topP: Value,
                           frequencyPenalty: Value, presencePenalty: Value, stop: Value, echo: Value,
                           n: Value, stream: Value, logprobs: Value, engine: Value, modelEngine: string): Dict
  {
    Set(SetEach(CompletionsBase(prompt, maxTokens, temperature, topP, frequencyPenalty, presencePenalty),
                Options(stop, echo, n, stream, logprobs, engine)),
        "model", Str(modelEngine))
  }

  /** Running the options is the six `if` statements one after the other. */
  lemma OptionsInOrder(data: Dict, stop: Value, echo: Value, n: Value, stream: Value,
                       logprobs: Value, engine: Value)
    ensures SetEach(data, Options(stop, echo, n, stream, logprobs, engine))
            == var data := SetIf(data, stop != Null, "stop", stop);
               var data := SetIf(data, Truthy(echo), "echo", echo);
               var data := SetIf(data, n != Null, "n", n);
               var data := SetIf(data, Truthy(stream), "stream", stream);
               var data := SetIf(data, logprobs != Null, "logprobs", logprobs);
               SetIf(data, engine != Null, "engine", engine)
  {
    var o := Options(stop, echo, n, stream, logprobs, engine);
    var d1 := SetIf(data, stop != Null, "stop", stop);
    var d2 := SetIf(d1, Truthy(echo), "echo", echo);
    var d3 := SetIf(d2, n != Null, "n", n);
    var d4 := SetIf(d3, Truthy(stream), "stream", stream);
    var d5 := SetIf(d4, logprobs != Null, "logprobs", logprobs);
    assert o[0..] == o;
    SetEachStep(data, o, 0);
    SetEachStep(d1, o, 1);
    SetEachStep(d2, o, 2);
    SetEachStep(d3, o, 3);
    SetEachStep(d4, o, 4);
    SetEachStep(d5, o, 5);
    assert o[6..] == [];
  }

  /** The keys the options add: those whose condition holds, in order. */
  lemma OptionsChosen(stop: Value, echo: Value, n: Value, stream: Value, logprobs: Value, engine: Value)
    ensures Chosen(Options(stop, echo, n, stream, logprobs, engine))
            == (if stop != Null then ["stop"] else [])
               + ((if Truthy(echo) then ["echo"] else [])
               + ((if n != Null then ["n"] else [])
               + ((if Truthy(stream) then ["stream"] else [])
               + ((if logprobs != Null then ["logprobs"] else [])
               + (if engine != Null then ["engine"] else [])))))
  {
    var o := Options(stop, echo, n, stream, logprobs, engine);
    assert o[0..] == o;
    ChosenStep(o, 0);
    ChosenStep(o, 1);
    ChosenStep(o, 2);
    ChosenStep(o, 3);
    ChosenStep(o, 4);
    ChosenStep(o, 5);
    assert o[6..] == [];
    assert (if engine != Null then ["engine"] else []) + [] == (if engine != Null then ["engine"] else []);
  }

  /** The options name six different keys, none of them `"model"`. */
  lemma OptionsDistinct(stop: Value, echo: Value, n: Value, stream: Value, logprobs: Value, engine: Value)
    ensures DistinctKeys(Options(stop, echo, n, stream, logprobs, engine))
    ensures forall i :: 0 <= i < 6 ==> Options(stop, echo, n, stream, logprobs, engine)[i].key != "model"
  {
  }

  /** The keys of the base, in order. */
  const BaseKeys: seq<string> :=
    ["prompt", "max_tokens", "temperature", "top_p", "frequency_penalty", "presence_penalty"]

  lemma BaseKeysOf(prompt: string, maxTokens: Value, temperature: Value, topP: Value,
                   frequencyPenalty: Value, presencePenalty: Value)
    ensures KeysOf(CompletionsBase(prompt, maxTokens, temperature, topP, frequencyPenalty, presencePenalty))
            == BaseKeys
  {
  }

  /** The keys of the options, in order. */
  const OptionKeys: seq<string> := ["stop", "echo", "n", "stream", "logprobs", "engine"]

  lemma OptionKeysOf(stop: Value, echo: Value, n: Value, stream: Value, logprobs: Value, engine: Value)
    ensures |Options(stop, echo, n, stream, logprobs, engine)| == 6
    ensures forall i :: 0 <= i < 6 ==> Options(stop, echo, n, stream, logprobs, engine)[i].key == OptionKeys[i]
  {
  }

  /** No option key is a base key. */
  lemma OptionKeysNotBase()
    ensures forall i :: 0 <= i < 6 ==> OptionKeys[i] !in BaseKeys
  {
    assert "stop" !in BaseKeys && "echo" !in BaseKeys && "n" !in BaseKeys;
    assert "stream" !in BaseKeys && "logprobs" !in BaseKeys && "engine" !in BaseKeys;
  }

  /** The base has none of the optional keys. */
  lemma BaseLacksOptions(prompt: string, maxTokens: Value, temperature: Value, topP: Value,
                         frequencyPenalty: Value, presencePenalty: Value, stop: Value, echo: Value,
                         n: Value, stream: Value, logprobs: Value, engine: Value)
    ensures var o := Options(stop, echo, n, stream, logprobs, engine);
            forall i :: 0 <= i < |o| ==>
              o[i].key !in KeysOf(CompletionsBase(prompt, maxTokens, temperature, topP, frequencyPenalty,
                                                  presencePenalty))
  {
    BaseKeysOf(prompt, maxTokens, temperature, topP, frequencyPenalty, presencePenalty);
    OptionKeysOf(stop, echo, n, stream, logprobs, engine);
    OptionKeysNotBase();
  }

  /** The body's keys: the six fixed ones, the options that apply in the
      source's order, and `"model"` always last. */
  lemma CompletionsDataKeys(prompt: string, maxTokens: Value, temperature: Value, topP: Value,
                            frequencyPenalty: Value, presencePenalty: Value, stop: Value, echo: Value,
                            n: Value, stream: Value, logprobs: Value, engine: Value, modelEngine: string)
    ensures KeysOf(CompletionsData(prompt, maxTokens, temperature, topP, frequencyPenalty, presencePenalty,
                                   stop, echo, n, stream, logprobs, engine, modelEngine))
            == BaseKeys + Chosen(Options(stop, echo, n, stream, logprobs, engine)) + ["model"]
  {
    var base := CompletionsBase(prompt, maxTokens, temperature, topP, frequencyPenalty, presencePenalty);
    var o := Options(stop, echo, n, stream, logprobs, engine);
    BaseKeysOf(prompt, maxTokens, temperature, topP, frequencyPenalty, presencePenalty);
    OptionsDistinct(stop, echo, n, stream, logprobs, engine);
    BaseLacksOptions(prompt, maxTokens, temperature, topP, frequencyPenalty, presencePenalty,
                     stop, echo, n, stream, logprobs, engine);
    SetEachKeys(base, o);
    var optioned := SetEach(base, o);
    assert "model" !in KeysOf(optioned) by {
      if "model" in Chosen(o) {
        ChosenFromRun(o, "model");
      }
    }
    SetKeys(optioned, "model", Str(modelEngine));
  }

  /** The six fixed keys hold their arguments. */
  lemma BaseFields(prompt: string, maxTokens: Value, temperature: Value, topP: Value,
                   frequencyPenalty: Value, presencePenalty: Value)
    ensures var base := CompletionsBase(prompt, maxTokens, temperature, topP, frequencyPenalty, presencePenalty);
            && Get(base, "prompt") == Some(Str(prompt))
            && Get(base, "max_tokens") == Some(maxTokens)
            && Get(base, "temperature") == Some(temperature)
            && Get(base, "top_p") == Some(topP)
            && Get(base, "frequency_penalty") == Some(frequencyPenalty)
            && Get(base, "presence_penalty") == Some(presencePenalty)
  {
    var base := CompletionsBase(prompt, maxTokens, temperature, topP, frequencyPenalty, presencePenalty);
    GetAt(base, 0); GetAt(base, 1); GetAt(base, 2); GetAt(base, 3); GetAt(base, 4); GetAt(base, 5);
  }

  /** A key that neither the options nor `"model"` assign keeps the value
      the base gave it. */
  lemma CompletionsDataOther(prompt: string, maxTokens: Value, temperature: Value, topP: Value,
                             frequencyPenalty: Value, presencePenalty: Value, stop: Value, echo: Value,
                             n: Value, stream: Value, logprobs: Value, engine: Value, modelEngine: string,
                             k: string)
    requires k !in ["stop", "echo", "n", "stream", "logprobs", "engine", "model"]
    ensures Get(CompletionsData(prompt, maxTokens, temperature, topP, frequencyPenalty, presencePenalty,
                                stop, echo, n, stream, logprobs, engine, modelEngine), k)
            == Get(CompletionsBase(prompt, maxTokens, temperature, topP, frequencyPenalty, presencePenalty), k)
  {
    var base := CompletionsBase(prompt, maxTokens, temperature, topP, frequencyPenalty, presencePenalty);
    var o := Options(stop, echo, n, stream, logprobs, engine);
    SetEachOther(base, o, k);
    SetGet(SetEach(base, o), "model", Str(modelEngine));
  }

  /** The body's fixed keys hold their arguments. */
  lemma CompletionsDataFixed(prompt: string, maxTokens: Value, temperature: Value, topP: Value,
                             frequencyPenalty: Value, presencePenalty: Value, stop: Value, echo: Value,
                             n: Value, stream: Value, logprobs: Value, engine: Value, modelEngine: string)
    ensures var d := CompletionsData(prompt, maxTokens, temperature, topP, frequencyPenalty, presencePenalty,
                                     stop, echo, n, stream, logprobs, engine, modelEngine);
            && Get(d, "prompt") == Some(Str(prompt))
            && Get(d, "max_tokens") == Some(maxTokens)
            && Get(d, "temperature") == Some(temperature)
            && Get(d, "top_p") == Some(topP)
            && Get(d, "frequency_penalty") == Some(frequencyPenalty)
            && Get(d, "presence_penalty") == Some(presencePenalty)
  {
    BaseFields(prompt, maxTokens, temperature, topP, frequencyPenalty, presencePenalty);
    CompletionsDataOther(prompt, maxTokens, temperature, topP, frequencyPenalty, presencePenalty,
                         stop, echo, n, stream, logprobs, engine, modelEngine, "prompt");
    CompletionsDataOther(prompt, maxTokens, temperature, topP, frequencyPenalty, presencePenalty,
                         stop, echo, n, stream, logprobs, engine, modelEngine, "max_tokens");
    CompletionsDataOther(prompt, maxTokens, temperature, topP, frequencyPenalty, presencePenalty,
                         stop, echo, n, stream, logprobs, engine, modelEngine, "temperature");
    CompletionsDataOther(prompt, maxTokens, temperature, topP, frequencyPenalty, presencePenalty,
                         stop, echo, n, stream, logprobs, engine, modelEngine, "top_p");
    CompletionsDataOther(prompt, maxTokens, temperature, topP, frequencyPenalty, presencePenalty,
                         stop, echo, n, stream, logprobs, engine, modelEngine, "frequency_penalty");
    CompletionsDataOther(prompt, maxTokens, temperature, topP, frequencyPenalty, presencePenalty,
                         stop, echo, n, stream, logprobs, engine, modelEngine, "presence_penalty");
  }

  /** The i-th option of the body holds its argument exactly when its
      condition holds and is absent otherwise. */
  lemma CompletionsDataOption(prompt: string, maxTokens: Value, temperature: Value, topP: Value,
                              frequencyPenalty: Value, presencePenalty: Value, stop: Value, echo: Value,
                              n: Value, stream: Value, logprobs: Value, engine: Value, modelEngine: string,
                              i: nat)
    requires i < 6
    ensures var o := Options(stop, echo, n, stream, logprobs, engine)[i];
            Get(CompletionsData(prompt, maxTokens, temperature, topP, frequencyPenalty, presencePenalty,
                                stop, echo, n, stream, logprobs, engine, modelEngine), o.key)
            == if o.when then Some(o.value) else None
  {
    var base := CompletionsBase(prompt, maxTokens, temperature, topP, frequencyPenalty, presencePenalty);
    var o := Options(stop, echo, n, stream, logprobs, engine);
    OptionsDistinct(stop, echo, n, stream, logprobs, engine);
    BaseLacksOptions(prompt, maxTokens, temperature, topP, frequencyPenalty, presencePenalty,
                     stop, echo, n, stream, logprobs, engine);
    GetSomeIffKey(base, o[i].key);
    SetEachGet(base, o, i);
    SetGet(SetEach(base, o), "model", Str(modelEngine));
  }

  /** Each optional key of the body holds its argument exactly when its
      condition holds and is absent otherwise; `"model"` holds the client's
      engine, whatever `engine` was passed. */
  lemma CompletionsDataOptions(prompt: string, maxTokens: Value, temperature: Value, topP: Value,
                               frequencyPenalty: Value, presencePenalty: Value, stop: Value, echo: Value,
                               n: Value, stream: Value, logprobs: Value, engine: Value, modelEngine: string)
    ensures var d := CompletionsData(prompt, maxTokens, temperature, topP, frequencyPenalty, presencePenalty,
                                     stop, echo, n, stream, logprobs, engine, modelEngine);
            && Get(d, "stop") == (if stop != Null then Some(stop) else None)
            && Get(d, "echo") == (if Truthy(echo) then Some(echo) else None)
            && Get(d, "n") == (if n != Null then Some(n) else None)
            && Get(d, "stream") == (if Truthy(stream) then Some(stream) else None)
            && Get(d, "logprobs") == (if logprobs != Null then Some(logprobs) else None)
            && Get(d, "engine") == (if engine != Null then Some(engine) else None)
            && Get(d, "model") == Some(Str(modelEngine))
  {
    var base := CompletionsBase(prompt, maxTokens, temperature, topP, frequencyPenalty, presencePenalty);
    SetGet(SetEach(base, Options(stop, echo, n, stream, logprobs, engine)), "model", Str(modelEngine));
    CompletionsDataOption(prompt, maxTokens, temperature, topP, frequencyPenalty, presencePenalty,
                          stop, echo, n, stream, logprobs, engine, modelEngine, 0);
    CompletionsDataOption(prompt, maxTokens, temperature, topP, frequencyPenalty, presencePenalty,
                          stop, echo, n, stream, logprobs, engine, modelEngine, 1);
    CompletionsDataOption(prompt, maxTokens, temperature, topP, frequencyPenalty, presencePenalty,
                          stop, echo, n, stream, logprobs, engine, modelEngine, 2);
    CompletionsDataOption(prompt, maxTokens, temperature, topP, frequencyPenalty, presencePenalty,
                          stop, echo, n, stream, logprobs, engine, modelEngine, 3);
    CompletionsDataOption(prompt, maxTokens, temperature, topP, frequencyPenalty, presencePenalty,
                          stop, echo, n, stream, logprobs, engine, modelEngine, 4);
    CompletionsDataOption(prompt, maxTokens, temperature, topP, frequencyPenalty, presencePenalty,
                          stop, echo, n, stream, logprobs, engine, modelEngine, 5);
  }

  /** The URL `generate_text` posts to. */
  function EngineCompletionsUrl(modelEngine: string): string {
    Endpoint + "engines/" + modelEngine + "/completions"
  }

  /** The URL names the engine: different engines post to different URLs. */
  lemma EngineCompletionsUrlInjective(a: string, b: string)
    requires EngineCompletionsUrl(a) == EngineCompletionsUrl(b)
    ensures a == b
  {
    var n := |Endpoint + "engines/"|;
    assert a == EngineCompletionsUrl(a)[n..|EngineCompletionsUrl(a)| - 12];
    assert b == EngineCompletionsUrl(b)[n..|EngineCompletionsUrl(b)| - 12];
  }

  /** The body literal of `generate_text`, before the keyword arguments. */
  function GenerateTextBase(prompt: string, maxTokens: Value): Dict {
    [("prompt", Str(prompt)), ("max_tokens", maxTokens)]
  }

  /** The body `generate_text` posts: its two keys first, a keyword argument
      of the same name overriding each, and the other keyword arguments
      after them in their order. */
  lemma GenerateTextBody(prompt: string, maxTokens: Value, kwargs: Dict)
    requires Distinct(KeysOf(kwargs))
    ensures var body := Update(GenerateTextBase(prompt, maxTokens), kwargs);
            && ["prompt", "max_tokens"] <= KeysOf(body)
            && Get(body, "prompt") == (if Get(kwargs, "prompt").Some? then Get(kwargs, "prompt") else Some(Str(prompt)))
            && Get(body, "max_tokens") == (if Get(kwargs, "max_tokens").Some? then Get(kwargs, "max_tokens")
                                           else Some(maxTokens))
            && forall k :: k != "prompt" && k != "max_tokens" ==> Get(body, k) == Get(kwargs, k)
  {
    var base := GenerateTextBase(prompt, maxTokens);
    UpdateKeys(base, kwargs);
    assert KeysOf(base) == ["prompt", "max_tokens"];
    GetAt(base, 0); GetAt(base, 1);
    forall k | k != "prompt" && k != "max_tokens" ensures Get(base, k) == None {
      GetSomeIffKey(base, k);
    }
  }

  /** What `generate_text` returns: a response that is not ok raises
      `OpenAIError` before anything is read; otherwise the first choice's
      text, as it is, or the exception reading it raises. */
  function GenerateTextResult(response: Response<seq<Choice>>): (r: Result<string, Error>)
    ensures response.Answered? && !IsOk(response.status) ==> r == Err(OpenAIError)
    ensures response.ConnectionError? ==> r == Err(RequestException)
    ensures r.Ok? <==> FirstChoice(response).Ok? && FirstChoice(response).value.text.Some?
    ensures r.Ok? ==> r.value == FirstChoice(response).value.text.value
  {
    if response.Answered? && !IsOk(response.status) then Err(OpenAIError)
    else
      match FirstChoice(response)
      case Err(e) => Err(e)
      case Ok(c) => Present(c.text)
  }

  /** The client. `modelEngine` is the one field `set_engine` assigns; the
      history is one list object of whole messages. */
  class ChatGPTClient {
    const apiKey: string
    const endpoint: string := Endpoint
    var modelEngine: string
    const chatHistory: ListRef<Value>

    /** `ChatGPTClient(api_key)`. */
    constructor (apiKey: string)
      ensures this.apiKey == apiKey && modelEngine == DefaultEngine
      ensures fresh(chatHistory) && chatHistory.items == []
    {
      this.apiKey := apiKey;
      modelEngine := DefaultEngine;
      chatHistory := new ListRef<Value>();
    }

    /** `completions(prompt, max_tokens=100, temperature=0.5, top_p=1,
        frequency_penalty=0, presence_penalty=0, stop=None, echo=False,
        n=None, stream=False, logprobs=None, engine=None)`: builds the body
        key by key, posts it to `endpoint + "completions"` and returns the
        response's `"choices"` list as it came. */
    method Completions(prompt: string, response: Response<seq<Choice>>, maxTokens: Value := Int(100),
                       temperature: Value := Float(0.5), topP: Value := Int(1),
                       frequencyPenalty: Value := Int(0), presencePenalty: Value := Int(0),
                       stop: Value := Null, echo: Value := Bool(false), n: Value := Null,
                       stream: Value := Bool(false), logprobs: Value := Null, engine: Value := Null)
      returns (result: Result<seq<Choice>, Error>, sent: Request)
      ensures sent == Request(endpoint + "completions", JsonHeaders(apiKey),
                              CompletionsData(prompt, maxTokens, temperature, topP, frequencyPenalty,
                                              presencePenalty, stop, echo, n, stream, logprobs, engine,
                                              modelEngine))
      ensures result == Decoded(response)
    {
      var data := CompletionsBase(prompt, maxTokens, temperature, topP, frequencyPenalty, presencePenalty);
      data := SetIf(data, stop != Null, "stop", stop);
      data := SetIf(data, Truthy(echo), "echo", echo);
      data := SetIf(data, n != Null, "n", n);
      data := SetIf(data, Truthy(stream), "stream", stream);
      data := SetIf(data, logprobs != Null, "logprobs", logprobs);
      data := SetIf(data, engine != Null, "engine", engine);
      OptionsInOrder(CompletionsBase(prompt, maxTokens, temperature, topP, frequencyPenalty, presencePenalty),
                     stop, echo, n, stream, logprobs, engine);
      data := Set(data, "model", Str(modelEngine));
      sent := Request(endpoint + "completions", JsonHeaders(apiKey), data);
      var checked := Checked(response);
      if checked.Err? {
        return Err(checked.error), sent;
      }
      result := Member(checked.value);
    }

    /** `set_engine(engine)`: assigns the engine and nothing else. */
    method SetEngine(engine: string)
      modifies this`modelEngine
      ensures modelEngine == engine
    {
      modelEngine := engine;
    }

    /** `generate_text(prompt, max_tokens, **kwargs)`: posts to the current
        engine's URL. A keyword argument named `prompt` or `max_tokens`
        cannot reach the method: Python rejects such a call with a
        `TypeError` before the body runs. */
    method GenerateText(prompt: string, maxTokens: Value, kwargs: Dict, response: Response<seq<Choice>>)
      returns (result: Result<string, Error>, sent: Request)
      requires Distinct(KeysOf(kwargs))
      requires "prompt" !in KeysOf(kwargs) && "max_tokens" !in KeysOf(kwargs)
      ensures sent == Request(EngineCompletionsUrl(modelEngine), JsonHeaders(apiKey),
                              Update(GenerateTextBase(prompt, maxTokens), kwargs))
      ensures result == GenerateTextResult(response)
    {
      var url := endpoint + "engines/" + modelEngine + "/completions";
      var data := GenerateTextBase(prompt, maxTokens);
      data := Update(data, kwargs);
      sent := Request(url, JsonHeaders(apiKey), data);
      if response.Answered? && !IsOk(response.status) {
        return Err(OpenAIError), sent;
      }
      var choice := FirstChoice(response);
      if choice.Err? {
        return Err(choice.error), sent;
      }
      result := Present(choice.value.text);
    }

    /** `add_to_chat_history(message)`: exactly one entry, at the end. */
    method AddToChatHistory(message: Value)
      modifies chatHistory
      ensures chatHistory.items == old(chatHistory.items) + [message]
    {
      chatHistory.Append(message);
    }

    /** `get_chat_history`: the client's own list object. */
    function GetChatHistory(): (h: ListRef<Value>)
      ensures h == chatHistory
    {
      chatHistory
    }
  }

  /** The engine set last is the one the next `generate_text` posts to. */
  method SetEngineThenGenerate(client: ChatGPTClient, engine: string, prompt: string, maxTokens: Value,
                               response: Response<seq<Choice>>)
    returns (sent: Request)
    modifies client
    ensures client.modelEngine == engine
    ensures sent.url == Endpoint + "engines/" + engine + "/completions"
  {
    client.SetEngine(engine);
    var result;
    result, sent := client.GenerateText(prompt, maxTokens, [], response);
  }
}
