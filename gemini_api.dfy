/** The `/api/gemini` edge handler: request validation in a fixed order (405, then 400,
    then the configuration 500), the Gemini call, and the repair of `wellbeingScore`. */
module GeminiApi {
  import opened Js
  import opened Schemas

  /** What the Gemini call, `response.text.trim()` and `JSON.parse` together produce:
      the parsed JSON value, or the value one of them threw. */
  datatype Generation = Generated(value: Json) | GenerationThrew(thrown: Thrown)

  const BaseFields: seq<string> :=
    ["empatheticReply", "reflectionPrompt", "wellbeingScore", "improvementTip", "isSafetyAlert"]

  /** `responseSchema`: five properties, all required, and no therapist summary. */
  const ResponseSchema: Schema := ObjectSchema(
    [ ("empatheticReply", StringSchema),
      ("reflectionPrompt", StringSchema),
      ("wellbeingScore", IntegerSchema),
      ("improvementTip", StringSchema),
      ("isSafetyAlert", BooleanSchema) ],
    BaseFields)

  lemma ResponseSchemaShape()
    ensures RequiredAreProperties(ResponseSchema)
    ensures ResponseSchema.required == BaseFields
    ensures PropertyNames(ResponseSchema.properties) == set f | f in BaseFields
    ensures "therapistSummary" !in PropertyNames(ResponseSchema.properties)
  {
    var props := ResponseSchema.properties;
    assert props[0].0 == "empatheticReply" && props[1].0 == "reflectionPrompt" && props[2].0 == "wellbeingScore";
    assert props[3].0 == "improvementTip" && props[4].0 == "isSafetyAlert";
    assert PropertyNames(props) == {"empatheticReply", "reflectionPrompt", "wellbeingScore", "improvementTip", "isSafetyAlert"};
  }

  // ---------------------------------------------------------------------------
  // Score repair

  const ScoreKey: string := "wellbeingScore"
  const NeutralScore: int := 50

  /** The score a response may keep: a number within 0..100, both bounds included. */
  predicate ScoreIsValid(score: Option<Json>)
  {
    score.Some? && score.value.Num? && 0 <= score.value.n <= 100
  }

  /** The parsed response after its score check: a score that is not a number in 0..100 is
      overwritten with 50. This runs as strict (module) code: reading a property of `null` throws,
      and so does assigning a property to a primitive. On an array the assignment succeeds, but
      the property is not part of its JSON value. */
  function Repaired(v: Json): (r: Completion<Json>)
    ensures r.Normal? <==> v.Obj? || v.Arr?
    ensures r.Throw? ==> r.thrown == ErrorObject(TypeErrorMessage)
    ensures v.Arr? ==> r == Normal(v)
    ensures v.Obj? ==> r.value.Obj? && ScoreIsValid(Get(r.value, ScoreKey))
    ensures v.Obj? ==> r.value.fields.Keys == v.fields.Keys + {ScoreKey}
    ensures v.Obj? ==> forall k :: k != ScoreKey ==> Get(r.value, k) == Get(v, k)
    ensures v.Obj? && ScoreIsValid(Get(v, ScoreKey)) ==> r.value == v
    ensures v.Obj? && !ScoreIsValid(Get(v, ScoreKey)) ==> Get(r.value, ScoreKey) == Some(Num(NeutralScore))
  {
    match v
    case Obj(fields) =>
      if ScoreIsValid(Get(v, ScoreKey)) then Normal(v) else Normal(Obj(fields[ScoreKey := Num(NeutralScore)]))
    case Arr(_) => Normal(v)
    case _ => Throw(ErrorObject(TypeErrorMessage))
  }

  /** Repairing an already repaired response changes nothing. */
  lemma RepairIsIdempotent(v: Json)
    requires Repaired(v).Normal?
    ensures Repaired(Repaired(v).value) == Repaired(v)
  {
  }

  // ---------------------------------------------------------------------------
  // The handler

  function ErrorBody(message: string): Json
  {
    Obj(map["error" := Str(message)])
  }

  const MethodNotAllowed: Response := Response(405, JsonBody(ErrorBody("Method Not Allowed")))
  const InvalidUserInput: Response := Response(400, JsonBody(ErrorBody("Invalid userInput")))
  const MissingApiKey: Response :=
    Response(500, JsonBody(ErrorBody("Server configuration error. The API key is missing.")))

  /** The 500 response of the `catch` block; `details` is the caught error's message. */
  function FailureResponse(e: Thrown): (r: Response)
    ensures r.status == 500 && r.body.JsonBody?
    ensures Get(r.body.json, "error") == Some(Str("Failed to get a response from AEGIS."))
    ensures e.ErrorObject? ==> Get(r.body.json, "details") == Some(Str(e.message))
    ensures e.NonError? ==> Get(r.body.json, "details") == Some(Str("An unknown error occurred."))
  {
    var details := match e case ErrorObject(m) => m case NonError => "An unknown error occurred.";
    Response(500, JsonBody(Obj(map["error" := Str("Failed to get a response from AEGIS."), "details" := Str(details)])))
  }

  /** The request's `userInput` passes the handler's check: it is truthy and a string, that is,
      a non-empty string. */
  predicate ValidUserInput(request: Json)
    ensures ValidUserInput(request) <==>
      request.Obj? && "userInput" in request.fields && request.fields["userInput"].Str? && request.fields["userInput"].s != ""
  {
    var input := Get(request, "userInput");
    Truthy(input) && input.value.Str?
  }

  /** The API key passes the handler's falsiness check: it is set and non-empty. */
  predicate KeyConfigured(apiKey: Option<string>)
    ensures KeyConfigured(apiKey) <==> Truthy(if apiKey.Some? then Some(Str(apiKey.value)) else None)
  {
    apiKey.Some? && apiKey.value != ""
  }

  /** The response once Gemini has been called: 200 with the repaired value exactly when the
      answer parsed and could be repaired, otherwise the `catch` block's 500. */
  function GenerationResponse(g: Generation): (r: Response)
    ensures r.status == 200 || r.status == 500
    ensures r.body.JsonBody?
    ensures r.status == 200 <==> g.Generated? && Repaired(g.value).Normal?
    ensures r.status == 200 ==> Repaired(g.value) == Normal(r.body.json)
    ensures r.status == 500 ==> Get(r.body.json, "error") == Some(Str("Failed to get a response from AEGIS."))
    ensures g.GenerationThrew? ==> r == FailureResponse(g.thrown)
  {
    match g
    case GenerationThrew(e) => FailureResponse(e)
    case Generated(v) =>
      match Repaired(v)
      case Normal(repaired) => Response(200, JsonBody(repaired))
      case Throw(e) => FailureResponse(e)
  }

  /** `handler(req)`. `body` is what `req.json()` gives, `apiKey` the environment variable,
      `generation` what the Gemini call would give; `geminiCalled` says whether it was made and
      `schema` which response schema it asked for. */
  method Handle(httpMethod: string, body: BodyRead, apiKey: Option<string>, generation: Generation)
    returns (response: Response, geminiCalled: bool, schema: Option<Schema>)
    ensures httpMethod != "POST" ==> response == MethodNotAllowed
    ensures geminiCalled <==> httpMethod == "POST" && body.Parsed? && ValidUserInput(body.value) && KeyConfigured(apiKey)
    ensures schema.Some? <==> geminiCalled
    ensures geminiCalled ==> schema == Some(ResponseSchema)
    ensures httpMethod == "POST" && body.Unparsable? ==> response == FailureResponse(ErrorObject(body.message))
    ensures httpMethod == "POST" && body == Parsed(Null) ==> response == FailureResponse(ErrorObject(TypeErrorMessage))
    ensures httpMethod == "POST" && body.Parsed? && body.value != Null && !ValidUserInput(body.value) ==>
      response == InvalidUserInput
    ensures httpMethod == "POST" && body.Parsed? && ValidUserInput(body.value) && !KeyConfigured(apiKey) ==>
      response == MissingApiKey
    ensures geminiCalled ==> response == GenerationResponse(generation)
  {
    geminiCalled, schema := false, None;
    if httpMethod != "POST" {
      return MethodNotAllowed, false, None;
    }
    if body.Unparsable? {
      return FailureResponse(ErrorObject(body.message)), false, None;
    }
    var request := body.value;
    if request.Null? {
      // destructuring `const { userInput } = null`
      return FailureResponse(ErrorObject(TypeErrorMessage)), false, None;
    }
    if !ValidUserInput(request) {
      return InvalidUserInput, false, None;
    }
    if !KeyConfigured(apiKey) {
      return MissingApiKey, false, None;
    }
    geminiCalled := true;
    schema := Some(ResponseSchema);
    match generation {
      case GenerationThrew(e) =>
        response := FailureResponse(e);
      case Generated(value) =>
        var parsed := value;
        if !ScoreIsValid(Get(parsed, ScoreKey)) {
          match parsed {
            case Obj(fields) =>
              parsed := Obj(fields[ScoreKey := Num(NeutralScore)]);
            case Arr(_) =>
            case _ =>
              return FailureResponse(ErrorObject(TypeErrorMessage)), true, schema;
          }
        }
        response := Response(200, JsonBody(parsed));
    }
  }

  /** A successful answer always carries a valid score when it is an object, and repairing it
      again would change nothing. */
  lemma SuccessIsRepaired(g: Generation)
    requires GenerationResponse(g).status == 200
    ensures var body := GenerationResponse(g).body.json;
      && (body.Obj? ==> ScoreIsValid(Get(body, ScoreKey)))
      && Repaired(body) == Normal(body)
  {
  }
}
