/** The part of loading `/templatesPost.json` that the list page and the
    detail page share: the response check, JSON parsing and the unwrapping
    `dataArray[0]?.data || {}`. The network itself is not modelled: what the
    fetch produced is an input. */
module ContentSource {
  import opened Wrappers
  import opened JsonValue

  /** The body of a response, as `response.json()` resolves or rejects. */
  datatype Body = Parsed(value: Json) | Unparsable

  /** What `fetch` produced: a rejected promise, or a response with its
      status and body. */
  datatype Fetched = NetworkFailure | Response(status: int, body: Body)

  /** What a loader's `try` block can throw. */
  datatype Exception =
    | NetworkError          // fetch rejected
    | HttpStatus(status: int) // the loader's own `Failed to fetch templates: <status>`
    | SyntaxError           // response.json() rejected
    | TypeError             // property access on null, or a call of a non-function

  /** `response.ok`: the status is in the range 200-299. */
  predicate ResponseOk(status: int) {
    200 <= status <= 299
  }

  /** The parsed body, or what was thrown before it was available. */
  function FetchJson(f: Fetched): (r: Result<Json, Exception>)
    ensures r.Ok? <==> f.Response? && ResponseOk(f.status) && f.body.Parsed?
    ensures r.Ok? ==> r.value == f.body.value
    ensures f.NetworkFailure? ==> r == Err(NetworkError)
    ensures f.Response? && !ResponseOk(f.status) ==> r == Err(HttpStatus(f.status))
    ensures f.Response? && ResponseOk(f.status) && f.body.Unparsable? ==> r == Err(SyntaxError)
  {
    match f
    case NetworkFailure => Err(NetworkError)
    case Response(status, body) =>
      if !ResponseOk(status) then Err(HttpStatus(status))
      else match body
        case Parsed(v) => Ok(v)
        case Unparsable => Err(SyntaxError)
  }

  /** `dataArray[0]?.data`: the `data` property of the first element, where
      `?.` stops at a missing or `null` element. `dataArray` itself is not
      `null` (indexing `null` throws). */
  function FirstData(dataArray: Json): (r: Option<Json>)
    requires dataArray != JNull
    ensures dataArray.JArr? && |dataArray.items| > 0 && dataArray.items[0] != JNull ==>
      r == Get(dataArray.items[0], "data")
    ensures dataArray.JArr? && |dataArray.items| > 0 && dataArray.items[0] == JNull ==> r == None
    ensures dataArray == JArr([]) ==> r == None
    ensures dataArray.JObj? && !HasKey(dataArray.fields, "0") ==> r == None
    ensures dataArray.JBool? || dataArray.JNum? ==> r == None
  {
    FirstIndex(dataArray);
    match Get(dataArray, "0")
    case None => None
    case Some(first) => if first == JNull then None else Get(first, "data")
  }

  /** `dataArray[0]?.data || {}`: the slug-to-fields mapping. It throws only
      when the body is `null`; every other shape without a truthy `data` on
      its first element degrades to the empty mapping. */
  function UnwrapData(dataArray: Json): (r: Result<Json, Exception>)
    ensures r.Err? <==> dataArray == JNull
    ensures r.Err? ==> r.error == TypeError
    ensures r.Ok? ==> Truthy(r.value)
    ensures dataArray == JArr([]) ==> r == Ok(JObj([]))
    ensures dataArray.JArr? && |dataArray.items| > 0 ==>
      r == (var d := Get(dataArray.items[0], "data");
            if d.Some? && Truthy(d.value) then Ok(d.value) else Ok(JObj([])))
    ensures dataArray.JObj? && !HasKey(dataArray.fields, "0") ==> r == Ok(JObj([]))
    ensures dataArray.JBool? || dataArray.JNum? ==> r == Ok(JObj([]))
  {
    if dataArray == JNull then Err(TypeError)
    else
      var d := FirstData(dataArray);
      FirstIndex(dataArray);
      if d.Some? && Truthy(d.value) then Ok(d.value) else Ok(JObj([]))
  }

  /** The mapping a loader works on, or what its `try` block threw on the way. */
  function FetchData(f: Fetched): (r: Result<Json, Exception>)
    ensures r.Ok? <==> FetchJson(f).Ok? && FetchJson(f).value != JNull
    ensures r.Ok? ==> r == UnwrapData(FetchJson(f).value) && Truthy(r.value)
    ensures FetchJson(f).Err? ==> r == FetchJson(f)
  {
    match FetchJson(f)
    case Err(e) => Err(e)
    case Ok(dataArray) => UnwrapData(dataArray)
  }

  /** An answered, well-formed response whose body has no wrapper (an empty
      array, or a plain mapping without key "0") yields the empty mapping. */
  lemma UnwrappedBodyIsEmpty(status: int, body: Json)
    requires ResponseOk(status)
    requires body == JArr([]) || (body.JObj? && !HasKey(body.fields, "0"))
    ensures FetchData(Response(status, Parsed(body))) == Ok(JObj([]))
  {
  }
}
