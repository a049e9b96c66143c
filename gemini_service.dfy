/** The client's `getAegisResponse`: one POST to `/api/gemini`, the server's error surfaced as
    the rejection message, and the score checked once more on the client. */
module GeminiService {
  import opened Js
  import GeminiApi

  /** What `fetch` produced: a thrown value, or a response with its status and what
      `response.json()` gives for its body. */
  datatype FetchOutcome = FetchThrew(thrown: Thrown) | Fetched(status: int, body: BodyRead)

  /** How the returned promise settles: with the response, or rejected with an `Error`. */
  datatype ServiceResult = Resolved(response: Json) | Rejected(message: string)

  /** `response.ok`. */
  predicate IsOk(status: int)
  {
    200 <= status <= 299
  }

  const UnknownServerError: string := "An unknown server error occurred."
  const Unavailable: string := "Failed to get a response from AEGIS. The service may be temporarily unavailable."

  /** The message of the `Error` thrown for a non-ok response: the body's `error` when it is
      truthy (converted with `String`), otherwise the status line. A body that does not parse
      stands for `{ error: 'An unknown server error occurred.' }`; a `null` body makes the
      `.error` read itself throw. */
  function ErrorMessage(status: int, body: BodyRead): (m: string)
    ensures body.Unparsable? ==> m == UnknownServerError
    ensures body == Parsed(Null) ==> m == TypeErrorMessage
    ensures body.Parsed? && Truthy(Get(body.value, "error")) ==> m == ToJsString(body.value.fields["error"])
    ensures body.Parsed? && body.value != Null && !Truthy(Get(body.value, "error")) ==>
      m == "Request failed with status " + IntToDecimal(status)
  {
    var errorData := if body.Unparsable? then Obj(map["error" := Str(UnknownServerError)]) else body.value;
    if errorData.Null? then TypeErrorMessage
    else
      var error := Get(errorData, "error");
      if Truthy(error) then ToJsString(error.value)
      else "Request failed with status " + IntToDecimal(status)
  }

  /** The `catch` block: an `Error` is thrown again with the same message, anything else is
      replaced by a fixed message. */
  function Rethrown(e: Thrown): (m: string)
    ensures e.ErrorObject? ==> m == e.message
    ensures e.NonError? ==> m == Unavailable
  {
    match e
    case ErrorObject(message) => message
    case NonError => Unavailable
  }

  /** How `getAegisResponse` settles for a given fetch outcome: a thrown fetch, a non-ok status
      or an unusable body rejects; an ok body resolves with its score repaired. */
  function Outcome(fetch: FetchOutcome): (r: ServiceResult)
    ensures r.Resolved? ==> fetch.Fetched? && IsOk(fetch.status) && fetch.body.Parsed?
    ensures r.Resolved? ==> GeminiApi.Repaired(fetch.body.value) == Normal(r.response)
    ensures r.Resolved? ==> r.response.Obj? || r.response.Arr?
    ensures r.Resolved? && r.response.Obj? ==> GeminiApi.ScoreIsValid(Get(r.response, GeminiApi.ScoreKey))
    ensures fetch.Fetched? && IsOk(fetch.status) && fetch.body.Parsed? && fetch.body.value.Obj? ==> r.Resolved?
  {
    match fetch
    case FetchThrew(e) => Rejected(Rethrown(e))
    case Fetched(status, body) =>
      if !IsOk(status) then Rejected(ErrorMessage(status, body))
      else if body.Unparsable? then Rejected(body.message)
      else
        match GeminiApi.Repaired(body.value)
        case Normal(v) => Resolved(v)
        case Throw(e) => Rejected(Rethrown(e))
  }

  /** `getAegisResponse(userInput)`, given what the request to the server produced; the score
      is repaired in place on the parsed body. */
  method GetAegisResponse(fetch: FetchOutcome) returns (result: ServiceResult)
    ensures result == Outcome(fetch)
    ensures fetch.FetchThrew? ==> result == Rejected(Rethrown(fetch.thrown))
    ensures fetch.Fetched? && !IsOk(fetch.status) ==> result == Rejected(ErrorMessage(fetch.status, fetch.body))
    ensures fetch.Fetched? && IsOk(fetch.status) && fetch.body.Unparsable? ==> result == Rejected(fetch.body.message)
    ensures fetch.Fetched? && IsOk(fetch.status) && fetch.body.Parsed? ==>
      match GeminiApi.Repaired(fetch.body.value)
      case Normal(v) => result == Resolved(v)
      case Throw(e) => result == Rejected(Rethrown(e))
  {
    var thrown: Thrown;
    match fetch {
      case FetchThrew(e) =>
        thrown := e;
      case Fetched(status, body) =>
        if !IsOk(status) {
          thrown := ErrorObject(ErrorMessage(status, body));
        } else if body.Unparsable? {
          thrown := ErrorObject(body.message);
        } else {
          var parsedResponse := body.value;
          if parsedResponse.Null? {
            // `null.wellbeingScore`
            thrown := ErrorObject(TypeErrorMessage);
          } else if !GeminiApi.ScoreIsValid(Get(parsedResponse, GeminiApi.ScoreKey)) {
            match parsedResponse {
              case Obj(fields) =>
                parsedResponse := Obj(fields[GeminiApi.ScoreKey := Num(GeminiApi.NeutralScore)]);
                return Resolved(parsedResponse);
              case Arr(_) =>
                return Resolved(parsedResponse);
              case _ =>
                // assigning a property to a primitive in module code
                thrown := ErrorObject(TypeErrorMessage);
            }
          } else {
            return Resolved(parsedResponse);
          }
        }
    }
    result := Rejected(Rethrown(thrown));
  }

  /** Every validation error `/api/gemini` sends rejects with its own `error` text. */
  lemma ValidationErrorsAreSurfaced()
    ensures Outcome(Fetched(405, Parsed(GeminiApi.MethodNotAllowed.body.json))) == Rejected("Method Not Allowed")
    ensures Outcome(Fetched(400, Parsed(GeminiApi.InvalidUserInput.body.json))) == Rejected("Invalid userInput")
    ensures Outcome(Fetched(500, Parsed(GeminiApi.MissingApiKey.body.json))) ==
      Rejected("Server configuration error. The API key is missing.")
  {
  }

  /** A failed generation rejects with the server's fixed `error` text; its `details` are not
      shown. */
  lemma FailureIsSurfaced(e: Thrown)
    ensures Outcome(Fetched(500, Parsed(GeminiApi.FailureResponse(e).body.json))) ==
      Rejected("Failed to get a response from AEGIS.")
  {
  }

  /** The rejection message of a non-ok response is never empty, unless the body's `error`
      is an array (`String([])` is the empty string). */
  lemma NonOkMessageIsNonEmpty(status: int, body: BodyRead)
    requires !(body.Parsed? && Get(body.value, "error").Some? && Get(body.value, "error").value.Arr?)
    ensures ErrorMessage(status, body) != ""
  {
    if body.Parsed? && body.value != Null && Truthy(Get(body.value, "error")) {
      var error := body.value.fields["error"];
      ToJsStringOfTruthyIsNonEmpty(error);
    }
  }

  /** `String(v)` of a truthy value other than an array is never empty. */
  lemma ToJsStringOfTruthyIsNonEmpty(v: Json)
    requires Truthy(Some(v))
    ensures v.Arr? || ToJsString(v) != ""
  {
    if v.Num? {
      assert |NatToDecimal(if v.n < 0 then -v.n else v.n)| >= 1;
    }
  }
}
