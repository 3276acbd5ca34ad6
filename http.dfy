/** The outcome of one HTTP request as the clients see it, given to the model
    as an input value instead of being fetched, and the exceptions the
    clients can raise. */
module Http {
  import opened Wrappers
  import opened PyDict

  /** The Python exceptions an operation of the model can end with. */
  datatype Error =
    | RequestException    // requests could not complete the exchange
    | HTTPError(status: int)  // raised by `raise_for_status()`
    | JSONDecodeError     // `response.json()` on a body that is not JSON
    | KeyError            // a member missing from the JSON, or an unknown size name
    | IndexError          // `choices[0]` of an empty list, `completions[i]` past its end
    | ValueError          // `completions` in gpt_client.py on a status other than 200
    | OpenAIError         // `generate_text` in chat_gpt_client.py on a response that is not ok
    | FileNotFoundError   // `open()` of a file that cannot be read
    | EOFError            // `input()` after the last line of input

  /** The part of the decoded JSON body the client goes on to read (the
      `"choices"` or the `"data"` member). */
  datatype Body<T> = NotJson | Missing | Found(member: T)

  /** What `requests.post` produced: it raised, or the server answered. */
  datatype Response<T> = ConnectionError | Answered(status: int, body: Body<T>)

  /** `response.raise_for_status()` raises for client and server errors,
      the status codes 400 to 599, and for nothing else. */
  predicate RaisesForStatus(status: int) {
    400 <= status < 600
  }

  /** `response.ok` is true exactly when `raise_for_status()` would not raise. */
  predicate IsOk(status: int) {
    !RaisesForStatus(status)
  }

  /** `requests.post(...)` followed by `response.raise_for_status()`: the
      body when both pass, and the exception otherwise. */
  function Checked<T>(r: Response<T>): Result<Body<T>, Error>
  {
    match r
    case ConnectionError => Err(RequestException)
    case Answered(status, body) =>
      if RaisesForStatus(status) then Err(HTTPError(status)) else Ok(body)
  }

  /** `response.json()["choices"]` (or `["data"]`): the member, or the
      exception decoding or indexing raises. */
  function Member<T>(b: Body<T>): Result<T, Error>
  {
    match b
    case NotJson => Err(JSONDecodeError)
    case Missing => Err(KeyError)
    case Found(v) => Ok(v)
  }

  /** `requests.post(...)`, `raise_for_status()`, then
      `response.json()["choices"]`: the member, or the first exception. */
  function Decoded<T>(r: Response<T>): (m: Result<T, Error>)
    ensures m.Ok? <==> r.Answered? && IsOk(r.status) && r.body.Found?
    ensures m.Ok? ==> m.value == r.body.member
    ensures m.Err? ==> m.error == (if r.ConnectionError? then RequestException
                                   else if RaisesForStatus(r.status) then HTTPError(r.status)
                                   else if r.body.NotJson? then JSONDecodeError
                                   else KeyError)
  {
    match Checked(r)
    case Err(e) => Err(e)
    case Ok(body) => Member(body)
  }

  /** One entry of a completion response's `"choices"` list: its
      `["message"]["content"]` and its `["text"]`, `None` where a key is
      missing. */
  datatype Choice = Choice(content: Option<string>, text: Option<string>)

  /** `response.json()["choices"][0]`: the first choice of an answer that
      passed `raise_for_status()`, or the exception on the way to it. */
  function FirstChoice(r: Response<seq<Choice>>): (c: Result<Choice, Error>)
    ensures c.Ok? <==> r.Answered? && IsOk(r.status) && r.body.Found? && r.body.member != []
    ensures c.Ok? ==> c.value == r.body.member[0]
    ensures r.Answered? && IsOk(r.status) && r.body == Found([]) ==> c == Err(IndexError)
    ensures c.Err? ==> c.error == (if r.ConnectionError? then RequestException
                                   else if RaisesForStatus(r.status) then HTTPError(r.status)
                                   else if r.body.NotJson? then JSONDecodeError
                                   else if r.body.Missing? then KeyError
                                   else IndexError)
  {
    match Checked(r)
    case Err(e) => Err(e)
    case Ok(body) =>
      match Member(body)
      case Err(e) => Err(e)
      case Ok(choices) => if choices == [] then Err(IndexError) else Ok(choices[0])
  }

  /** `choice["text"]` or `choice["message"]["content"]`: the member, or the
      `KeyError` of a missing one. */
  function Present(o: Option<string>): Result<string, Error>
  {
    match o
    case Some(s) => Ok(s)
    case None => Err(KeyError)
  }

  /** The headers the chat clients send: JSON content and the bearer key. */
  function JsonHeaders(apiKey: string): (h: Dict)
    ensures KeysOf(h) == ["Content-Type", "Authorization"]
    ensures Get(h, "Content-Type") == Some(Str("application/json"))
    ensures Get(h, "Authorization") == Some(Str("Bearer " + apiKey))
  {
    var h := [("Content-Type", Str("application/json")), ("Authorization", Str("Bearer " + apiKey))];
    GetAt(h, 0); GetAt(h, 1);
    h
  }

  /** A request as the client hands it to `requests.post`: the URL, the
      headers and the body (sent as JSON, or as form fields for the image
      variation upload). */
  datatype Request = Request(url: string, headers: Dict, body: Dict)
}
