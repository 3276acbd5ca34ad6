/** tgpt/image_handler.py: the image generation and variation requests, the
    closed table of size names, and the rule that a failed request yields
    an empty list. */
module TgptImageHandler {
  import opened Wrappers
  import opened PyDict
  import opened Http

  const EndpointGeneration := "https://api.openai.com/v1/images/generations"
  const EndpointVariation := "https://api.openai.com/v1/images/variations"

  /** `self.image_sizes`. */
  const ImageSizes: Dict := [("small", Str("256x256")), ("medium", Str("512x512")), ("large", Str("1024x1024"))]

  /** `self.image_sizes[size]`: the pixel dimensions of a size name, or the
      `KeyError` an unknown name raises. */
  function SizeOf(size: string): (r: Result<string, Error>)
    ensures r.Ok? <==> size in {"small", "medium", "large"}
    ensures size == "small" ==> r == Ok("256x256")
    ensures size == "medium" ==> r == Ok("512x512")
    ensures size == "large" ==> r == Ok("1024x1024")
    ensures r.Err? ==> r.error == KeyError
  {
    GetAt(ImageSizes, 0); GetAt(ImageSizes, 1); GetAt(ImageSizes, 2);
    GetSomeIffKey(ImageSizes, size);
    assert KeysOf(ImageSizes) == ["small", "medium", "large"];
    match Get(ImageSizes, size)
    case Some(Str(s)) => Ok(s)
    case _ => Err(KeyError)
  }

  /** The image client. Its fields are set once by the constructor and never
      changed, so it is a value: the headers are a function of the key. */
  datatype ImageHandler = ImageHandler(apiKey: string) {

    /** `self.headers`. */
    function Headers(): (h: Dict)
      ensures KeysOf(h) == ["Authorization"]
      ensures Get(h, "Authorization") == Some(Str("Bearer " + apiKey))
    {
      [("Authorization", Str("Bearer " + apiKey))]
    }

    /** `_send_request(endpoint, data)`: posts `data` as JSON with a copy of
        the headers that also carries Content-Type, and returns the response's
        `"data"` list, or `[]` when the request, the status or the body
        fails. */
    method SendRequest(endpoint: string, data: Dict, response: Response<seq<Value>>)
      returns (result: seq<Value>, sent: Request)
      ensures sent == Request(endpoint, Set(Headers(), "Content-Type", Str("application/json")), data)
      ensures result == (if response.Answered? && IsOk(response.status) && response.body.Found?
                         then response.body.member else [])
    {
      var headers := Headers();
      headers := Set(headers, "Content-Type", Str("application/json"));
      sent := Request(endpoint, headers, data);
      var checked := Checked(response);
      if checked.Err? {
        return [], sent;
      }
      var member := Member(checked.value);
      if member.Err? {
        return [], sent;
      }
      result := member.value;
    }

    /** `generate_image`: builds the generation body and sends it. The size
        is looked up outside any `try`, so an unknown size raises `KeyError`
        and nothing is sent; every later failure yields `[]`. */
    method GenerateImage(prompt: string, response: Response<seq<Value>>, size: string := "medium",
                         n: int := 1, responseFormat: string := "url")
      returns (result: Result<seq<Value>, Error>, sent: Option<Request>)
      ensures SizeOf(size).Err? <==> result == Err(KeyError)
      ensures SizeOf(size).Err? ==> sent == None
      ensures SizeOf(size).Ok? ==>
        && sent == Some(Request(EndpointGeneration,
                                Set(Headers(), "Content-Type", Str("application/json")),
                                GenerationBody(prompt, SizeOf(size).value, n, responseFormat)))
        && result == Ok(if response.Answered? && IsOk(response.status) && response.body.Found?
                        then response.body.member else [])
    {
      var dims := SizeOf(size);
      if dims.Err? {
        return Err(KeyError), None;
      }
      var data := GenerationBody(prompt, dims.value, n, responseFormat);
      var list, request := SendRequest(EndpointGeneration, data, response);
      result, sent := Ok(list), Some(request);
    }

    /** `generate_variation`: opens the image, builds the form fields and
        posts them with a plain copy of the headers. Everything is inside
        `try ... except Exception`, so an unreadable file, an unknown size
        and every request failure all yield `[]`. `readable` says whether
        `open(image_path, 'rb')` succeeds. */
    method GenerateVariation(imagePath: string, readable: bool, response: Response<seq<Value>>,
                             n: int := 1, size: string := "medium", responseFormat: string := "url")
      returns (result: seq<Value>, sent: Option<Request>)
      ensures !readable || SizeOf(size).Err? ==> result == [] && sent == None
      ensures readable && SizeOf(size).Ok? ==>
        && sent == Some(Request(EndpointVariation, Headers(),
                                VariationForm(n, SizeOf(size).value, responseFormat)))
        && result == (if response.Answered? && IsOk(response.status) && response.body.Found?
                      then response.body.member else [])
    {
      if !readable {
        return [], None;
      }
      var dims := SizeOf(size);
      if dims.Err? {
        return [], None;
      }
      var data := VariationForm(n, dims.value, responseFormat);
      var headers := Headers();
      sent := Some(Request(EndpointVariation, headers, data));
      var checked := Checked(response);
      if checked.Err? {
        return [], sent;
      }
      var member := Member(checked.value);
      if member.Err? {
        return [], sent;
      }
      result := member.value;
    }
  }

  /** The JSON body of `generate_image`. */
  function GenerationBody(prompt: string, dims: string, n: int, responseFormat: string): (d: Dict)
    ensures KeysOf(d) == ["model", "prompt", "size", "n", "response_format"]
    ensures Get(d, "model") == Some(Str("image-alpha-001"))
    ensures Get(d, "prompt") == Some(Str(prompt))
    ensures Get(d, "size") == Some(Str(dims))
    ensures Get(d, "n") == Some(Int(n))
    ensures Get(d, "response_format") == Some(Str(responseFormat))
  {
    var d := [("model", Str("image-alpha-001")), ("prompt", Str(prompt)), ("size", Str(dims)),
                    ("n", Int(n)), ("response_format", Str(responseFormat))];
    GetAt(d, 0); GetAt(d, 1); GetAt(d, 2); GetAt(d, 3); GetAt(d, 4);
    d
  }

  /** The form fields of `generate_variation`. */
  function VariationForm(n: int, dims: string, responseFormat: string): (d: Dict)
    ensures KeysOf(d) == ["n", "size", "response_format"]
    ensures Get(d, "n") == Some(Int(n))
    ensures Get(d, "size") == Some(Str(dims))
    ensures Get(d, "response_format") == Some(Str(responseFormat))
  {
    var d := [("n", Int(n)), ("size", Str(dims)), ("response_format", Str(responseFormat))];
    GetAt(d, 0); GetAt(d, 1); GetAt(d, 2);
    d
  }

  /** The handler's own headers never carry Content-Type: `_send_request`
      adds it to a copy, which has both keys, and leaves Authorization as it
      was. */
  lemma SendRequestHeaders(h: ImageHandler)
    ensures Get(h.Headers(), "Content-Type") == None
    ensures var sent := Set(h.Headers(), "Content-Type", Str("application/json"));
            && KeysOf(sent) == ["Authorization", "Content-Type"]
            && Get(sent, "Authorization") == Get(h.Headers(), "Authorization")
  {
    SetKeys(h.Headers(), "Content-Type", Str("application/json"));
  }

  /** An unknown size name is treated differently by the two requests:
      `generate_image` raises, `generate_variation` quietly returns `[]`,
      whatever the server would have answered. */
  method UnknownSizeAsymmetry(h: ImageHandler, size: string, prompt: string, imagePath: string,
                              readable: bool, response: Response<seq<Value>>)
    returns (image: Result<seq<Value>, Error>, variation: seq<Value>)
    requires size !in {"small", "medium", "large"}
    ensures image == Err(KeyError)
    ensures variation == []
  {
    var sentImage, sentVariation;
    image, sentImage := h.GenerateImage(prompt, response, size);
    variation, sentVariation := h.GenerateVariation(imagePath, readable, response, size := size);
  }
}
