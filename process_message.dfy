/** The `process-message` Supabase edge function: the mode-dependent response schema, the
    normalisation of the requested mode, and the handler's ordered writes to the `chats` and
    `summaries` tables, which stop at the first failure. */
module ProcessMessage {
  import opened Js
  import opened Schemas
  import opened Types
  import GeminiApi

  // ---------------------------------------------------------------------------
  // Schemas

  const BaseFields: seq<string> := GeminiApi.BaseFields
  const SummaryFields: seq<string> := ["moodCues", "possibleStressors", "suggestedFollowUp"]

  const BaseResponseSchema: seq<(string, Schema)> :=
    [ ("empatheticReply", StringSchema),
      ("reflectionPrompt", StringSchema),
      ("wellbeingScore", IntegerSchema),
      ("improvementTip", StringSchema),
      ("isSafetyAlert", BooleanSchema) ]

  const SummarySchema: Schema := ObjectSchema(
    [ ("moodCues", ArraySchema(StringSchema)),
      ("possibleStressors", ArraySchema(StringSchema)),
      ("suggestedFollowUp", StringSchema) ],
    SummaryFields)

  const TherapistSummarySchema: seq<(string, Schema)> := [("therapistSummary", SummarySchema)]

  datatype Mode = Private | Therapist

  lemma BaseNames()
    ensures PropertyNames(BaseResponseSchema) == set f | f in BaseFields
  {
    var p := BaseResponseSchema;
    assert p[0].0 == "empatheticReply" && p[1].0 == "reflectionPrompt" && p[2].0 == "wellbeingScore";
    assert p[3].0 == "improvementTip" && p[4].0 == "isSafetyAlert";
    assert PropertyNames(p) == {"empatheticReply", "reflectionPrompt", "wellbeingScore", "improvementTip", "isSafetyAlert"};
  }

  lemma TherapistNames()
    ensures PropertyNames(BaseResponseSchema + TherapistSummarySchema) == (set f | f in BaseFields) + {"therapistSummary"}
    ensures "therapistSummary" in PropertyNames(BaseResponseSchema + TherapistSummarySchema)
    ensures PropertySchema(BaseResponseSchema + TherapistSummarySchema, "therapistSummary") == SummarySchema
  {
    var p := BaseResponseSchema + TherapistSummarySchema;
    assert p[5] == ("therapistSummary", SummarySchema);
    assert p[0].0 == "empatheticReply" && p[1].0 == "reflectionPrompt" && p[2].0 == "wellbeingScore";
    assert p[3].0 == "improvementTip" && p[4].0 == "isSafetyAlert";
    assert PropertyNames(p) == {"empatheticReply", "reflectionPrompt", "wellbeingScore", "improvementTip", "isSafetyAlert", "therapistSummary"};
  }

  /** `getDynamicSchema`: THERAPIST requires the five base fields and the therapist summary;
      PRIVATE requires the five base fields and does not even declare a summary. */
  function GetDynamicSchema(mode: Mode): (s: Schema)
    ensures s.ObjectSchema? && RequiredAreProperties(s)
    ensures mode == Therapist ==> s.required == BaseFields + ["therapistSummary"]
    ensures mode == Therapist ==>
      PropertyNames(s.properties) == (set f | f in BaseFields) + {"therapistSummary"}
    ensures mode == Therapist ==> PropertySchema(s.properties, "therapistSummary") == SummarySchema
    ensures mode == Private ==> s.required == BaseFields
    ensures mode == Private ==> PropertyNames(s.properties) == set f | f in BaseFields
    ensures mode == Private ==> "therapistSummary" !in PropertyNames(s.properties)
  {
    BaseNames();
    TherapistNames();
    if mode == Therapist then
      ObjectSchema(BaseResponseSchema + TherapistSummarySchema, BaseFields + ["therapistSummary"])
    else
      ObjectSchema(BaseResponseSchema, BaseFields)
  }

  /** The summary requires its three fields: two string arrays and a string. */
  lemma SummarySchemaShape()
    ensures SummarySchema.required == ["moodCues", "possibleStressors", "suggestedFollowUp"]
    ensures PropertyNames(SummarySchema.properties) == {"moodCues", "possibleStressors", "suggestedFollowUp"}
    ensures RequiredAreProperties(SummarySchema)
    ensures PropertySchema(SummarySchema.properties, "moodCues") == ArraySchema(StringSchema)
    ensures PropertySchema(SummarySchema.properties, "possibleStressors") == ArraySchema(StringSchema)
    ensures PropertySchema(SummarySchema.properties, "suggestedFollowUp") == StringSchema
  {
    var p := SummarySchema.properties;
    assert p[0].0 == "moodCues" && p[1].0 == "possibleStressors" && p[2].0 == "suggestedFollowUp";
  }

  /** Field descriptions aside, the PRIVATE schema is the schema of `/api/gemini`. */
  lemma PrivateSchemaIsApiSchema()
    ensures GetDynamicSchema(Private) == GeminiApi.ResponseSchema
  {
  }

  /** The mode is THERAPIST only for exactly the string "THERAPIST"; any other value, a string in
      another case or not a string at all, means PRIVATE. */
  function NormaliseMode(mode: Json): (m: Mode)
    ensures m == Therapist <==> mode == Str("THERAPIST")
  {
    if mode == Str("THERAPIST") then Therapist else Private
  }

  // ---------------------------------------------------------------------------
  // Tables and their writes

  datatype ChatRow = ChatRow(teenId: Json, sender: MessageSender, content: Json)
  datatype SummaryRow = SummaryRow(teenId: Json, summaryData: Json)

  /** What an insert reports: success, or the error object it returned. */
  datatype InsertResult = Inserted | InsertFailed(message: string)

  /** The two tables the function writes. */
  class Store {
    var chats: seq<ChatRow>
    var summaries: seq<SummaryRow>

    constructor ()
      ensures chats == [] && summaries == []
    {
      chats := [];
      summaries := [];
    }

    method InsertChat(row: ChatRow, result: InsertResult) returns (error: Option<string>)
      modifies this
      ensures error.Some? <==> result.InsertFailed?
      ensures result.InsertFailed? ==> error == Some(result.message)
      ensures chats == old(chats) + (if result.Inserted? then [row] else [])
      ensures summaries == old(summaries)
    {
      if result.Inserted? {
        chats := chats + [row];
        error := None;
      } else {
        error := Some(result.message);
      }
    }

    method InsertSummary(row: SummaryRow, result: InsertResult) returns (error: Option<string>)
      modifies this
      ensures error.Some? <==> result.InsertFailed?
      ensures result.InsertFailed? ==> error == Some(result.message)
      ensures summaries == old(summaries) + (if result.Inserted? then [row] else [])
      ensures chats == old(chats)
    {
      if result.Inserted? {
        summaries := summaries + [row];
        error := None;
      } else {
        error := Some(result.message);
      }
    }
  }

  // ---------------------------------------------------------------------------
  // The handler

  /** The environment: whether `createClient` threw (and with which message), and `API_KEY`. */
  datatype Environment = Environment(clientError: Option<string>, apiKey: Option<string>)

  /** What each outside call reports, in the order the handler makes them. */
  datatype Outcomes = Outcomes(
    userInsert: InsertResult,
    generation: GeminiApi.Generation,
    aegisInsert: InsertResult,
    summaryInsert: InsertResult)

  /** One run of the handler: its response, the rows it appended, whether it called Gemini and
      the response schema it asked Gemini for. */
  datatype ServeRun = ServeRun(
    response: Response,
    chats: seq<ChatRow>,
    summaries: seq<SummaryRow>,
    geminiCalled: bool,
    schema: Option<Schema>)

  const MissingParameters: string := "Missing required parameters: userInput, mode, or teenId."
  const MissingApiKey: string := "Server configuration error: Missing API_KEY"

  /** The `catch` block's 500: `{ error: error.message }`; a thrown value without a message
      serialises as `{}`. */
  function ErrorResponse(e: Thrown): (r: Response)
    ensures r.status == 500 && r.body.JsonBody?
    ensures e.ErrorObject? ==> Get(r.body.json, "error") == Some(Str(e.message))
  {
    match e
    case ErrorObject(m) => Response(500, JsonBody(Obj(map["error" := Str(m)])))
    case NonError => Response(500, JsonBody(Obj(map[])))
  }

  /** The request carries truthy `userInput`, `mode` and `teenId`. */
  predicate HasParameters(request: Json)
    ensures HasParameters(request) ==>
      request.Obj? && "userInput" in request.fields && "mode" in request.fields && "teenId" in request.fields
    ensures HasParameters(request) ==> request.fields["mode"] != Str("") && request.fields["mode"] != Null
  {
    Truthy(Get(request, "userInput")) && Truthy(Get(request, "mode")) && Truthy(Get(request, "teenId"))
  }

  function UserRow(request: Json): ChatRow
    requires HasParameters(request)
  {
    ChatRow(Get(request, "teenId").value, User, Obj(map["text" := Get(request, "userInput").value]))
  }

  function AegisRow(request: Json, response: Json): ChatRow
    requires HasParameters(request)
  {
    ChatRow(Get(request, "teenId").value, Aegis, response)
  }

  /** The schema Gemini is asked to follow: the one of the normalised mode. */
  function RequestedSchema(request: Json): Schema
    requires HasParameters(request)
  {
    GetDynamicSchema(NormaliseMode(Get(request, "mode").value))
  }

  /** The summary row a THERAPIST-mode response asks for, if any. */
  predicate WantsSummary(request: Json, response: Json)
    requires HasParameters(request)
  {
    NormaliseMode(Get(request, "mode").value) == Therapist && Truthy(Get(response, "therapistSummary"))
  }

  /** What the handler does after Gemini answered `response`: the USER row is already written and
      the mode's schema was asked for; at most the AEGIS row and one summary row follow. */
  function AfterGeneration(request: Json, response: Json, outcomes: Outcomes): (r: ServeRun)
    requires HasParameters(request)
    ensures r.geminiCalled && r.schema == Some(RequestedSchema(request))
    ensures 1 <= |r.chats| <= 2 && r.chats[0] == UserRow(request)
    ensures r.summaries != [] ==> |r.chats| == 2 && |r.summaries| == 1
    ensures r.response.status == 200 ==> r.chats == [UserRow(request), AegisRow(request, response)]
  {
    var user := UserRow(request);
    var aegis := AegisRow(request, response);
    var teenId := Get(request, "teenId").value;
    var schema := Some(RequestedSchema(request));
    if outcomes.aegisInsert.InsertFailed? then
      ServeRun(ErrorResponse(ErrorObject(outcomes.aegisInsert.message)), [user], [], true, schema)
    else if NormaliseMode(Get(request, "mode").value) == Therapist && response.Null? then
      // `aegisResponse.therapistSummary` on null
      ServeRun(ErrorResponse(ErrorObject(TypeErrorMessage)), [user, aegis], [], true, schema)
    else if WantsSummary(request, response) then
      var summary := SummaryRow(teenId, Get(response, "therapistSummary").value);
      if outcomes.summaryInsert.InsertFailed? then
        ServeRun(ErrorResponse(ErrorObject(outcomes.summaryInsert.message)), [user, aegis], [], true, schema)
      else
        ServeRun(Response(200, JsonBody(response)), [user, aegis], [summary], true, schema)
    else
      ServeRun(Response(200, JsonBody(response)), [user, aegis], [], true, schema)
  }

  /** The handler as a function of the request, the environment and the outside outcomes: it
      answers 200 or 500, writes at most two chat rows and at most one summary row, and a summary
      row only after both chat rows. */
  function ServeSpec(httpMethod: string, body: BodyRead, env: Environment, outcomes: Outcomes): (r: ServeRun)
    ensures r.response.status == 200 || r.response.status == 500
    ensures |r.chats| <= 2 && |r.summaries| <= 1
    ensures r.summaries != [] ==> |r.chats| == 2
  {
    if httpMethod == "OPTIONS" then ServeRun(Response(200, TextBody("ok")), [], [], false, None)
    else if body.Unparsable? then ServeRun(ErrorResponse(ErrorObject(body.message)), [], [], false, None)
    else if body.value.Null? then ServeRun(ErrorResponse(ErrorObject(TypeErrorMessage)), [], [], false, None)
    else if !HasParameters(body.value) then ServeRun(ErrorResponse(ErrorObject(MissingParameters)), [], [], false, None)
    else if env.clientError.Some? then ServeRun(ErrorResponse(ErrorObject(env.clientError.value)), [], [], false, None)
    else if outcomes.userInsert.InsertFailed? then
      ServeRun(ErrorResponse(ErrorObject(outcomes.userInsert.message)), [], [], false, None)
    else if !GeminiApi.KeyConfigured(env.apiKey) then
      ServeRun(ErrorResponse(ErrorObject(MissingApiKey)), [UserRow(body.value)], [], false, None)
    else
      match outcomes.generation
      case GenerationThrew(e) => ServeRun(ErrorResponse(e), [UserRow(body.value)], [], true, Some(RequestedSchema(body.value)))
      case Generated(response) => AfterGeneration(body.value, response, outcomes)
  }

  /** `serve(async (req) => ...)`: the awaited steps one after the other, each insert appending
      to its table, and the first failure answering 500. */
  method Serve(store: Store, httpMethod: string, body: BodyRead, env: Environment, outcomes: Outcomes)
    returns (response: Response, geminiCalled: bool, schema: Option<Schema>)
    modifies store
    ensures var run := ServeSpec(httpMethod, body, env, outcomes);
      && response == run.response
      && geminiCalled == run.geminiCalled
      && schema == run.schema
      && store.chats == old(store.chats) + run.chats
      && store.summaries == old(store.summaries) + run.summaries
  {
    geminiCalled, schema := false, None;
    if httpMethod == "OPTIONS" {
      return Response(200, TextBody("ok")), false, None;
    }
    if body.Unparsable? {
      return ErrorResponse(ErrorObject(body.message)), false, None;
    }
    var request := body.value;
    if request.Null? {
      // destructuring `const { userInput, mode, teenId } = null`
      return ErrorResponse(ErrorObject(TypeErrorMessage)), false, None;
    }
    if !HasParameters(request) {
      return ErrorResponse(ErrorObject(MissingParameters)), false, None;
    }
    if env.clientError.Some? {
      return ErrorResponse(ErrorObject(env.clientError.value)), false, None;
    }
    var teenId := Get(request, "teenId").value;

    // 1. the user's message
    var failure := store.InsertChat(ChatRow(teenId, User, Obj(map["text" := Get(request, "userInput").value])), outcomes.userInsert);
    if failure.Some? {
      return ErrorResponse(ErrorObject(failure.value)), false, None;
    }

    // 2. Gemini
    if !GeminiApi.KeyConfigured(env.apiKey) {
      return ErrorResponse(ErrorObject(MissingApiKey)), false, None;
    }
    var currentMode := NormaliseMode(Get(request, "mode").value);
    geminiCalled := true;
    schema := Some(GetDynamicSchema(currentMode));
    var aegisResponse;
    match outcomes.generation {
      case GenerationThrew(e) =>
        return ErrorResponse(e), true, schema;
      case Generated(v) =>
        aegisResponse := v;
    }

    // 3. AEGIS's response
    failure := store.InsertChat(ChatRow(teenId, Aegis, aegisResponse), outcomes.aegisInsert);
    if failure.Some? {
      return ErrorResponse(ErrorObject(failure.value)), true, schema;
    }

    // 4. the therapist summary
    if currentMode == Therapist {
      if aegisResponse.Null? {
        return ErrorResponse(ErrorObject(TypeErrorMessage)), true, schema;
      }
      var summary := Get(aegisResponse, "therapistSummary");
      if Truthy(summary) {
        failure := store.InsertSummary(SummaryRow(teenId, summary.value), outcomes.summaryInsert);
        if failure.Some? {
          return ErrorResponse(ErrorObject(failure.value)), true, schema;
        }
      }
    }
    response := Response(200, JsonBody(aegisResponse));
  }

  // ---------------------------------------------------------------------------
  // Properties of the handler

  /** Missing parameters answer 500 and write nothing. */
  lemma MissingParametersWriteNothing(httpMethod: string, request: Json, env: Environment, outcomes: Outcomes)
    requires httpMethod != "OPTIONS" && !HasParameters(request)
    ensures var run := ServeSpec(httpMethod, Parsed(request), env, outcomes);
      run.response.status == 500 && run.chats == [] && run.summaries == [] && !run.geminiCalled
  {
  }

  /** The USER row is written before the API key is read or Gemini is called: a missing key or a
      failed generation leaves exactly that one row. */
  lemma UserRowPrecedesGemini(httpMethod: string, request: Json, env: Environment, outcomes: Outcomes)
    requires httpMethod != "OPTIONS" && request != Null && HasParameters(request)
    requires env.clientError.None? && outcomes.userInsert.Inserted?
    requires !GeminiApi.KeyConfigured(env.apiKey) || outcomes.generation.GenerationThrew?
    ensures var run := ServeSpec(httpMethod, Parsed(request), env, outcomes);
      run.response.status == 500 && run.chats == [UserRow(request)] && run.summaries == []
  {
  }

  /** Whenever Gemini is called, the USER row has already been written. */
  lemma GeminiCalledOnlyAfterUserRow(httpMethod: string, body: BodyRead, env: Environment, outcomes: Outcomes)
    requires ServeSpec(httpMethod, body, env, outcomes).geminiCalled
    ensures var run := ServeSpec(httpMethod, body, env, outcomes);
      body.Parsed? && HasParameters(body.value) && |run.chats| >= 1 && run.chats[0] == UserRow(body.value)
  {
  }

  /** Gemini is given a response schema exactly when it is called, and that schema is the one of
      the request's normalised mode. */
  lemma SchemaFollowsMode(httpMethod: string, body: BodyRead, env: Environment, outcomes: Outcomes)
    ensures var run := ServeSpec(httpMethod, body, env, outcomes);
      && (run.schema.Some? <==> run.geminiCalled)
      && (run.geminiCalled ==> body.Parsed? && HasParameters(body.value))
      && (run.geminiCalled ==> run.schema == Some(RequestedSchema(body.value)))
  {
  }

  /** A request whose `mode` is anything but the string "THERAPIST" asks Gemini for the five base
      fields only: the schema does not even declare `therapistSummary`. */
  lemma PrivateRequestAsksForNoSummary(httpMethod: string, body: BodyRead, env: Environment, outcomes: Outcomes)
    requires ServeSpec(httpMethod, body, env, outcomes).geminiCalled
    requires body.Parsed? && Get(body.value, "mode") != Some(Str("THERAPIST"))
    ensures var schema := ServeSpec(httpMethod, body, env, outcomes).schema;
      && schema.Some? && schema.value.ObjectSchema?
      && schema.value.required == BaseFields
      && "therapistSummary" !in PropertyNames(schema.value.properties)
  {
    SchemaFollowsMode(httpMethod, body, env, outcomes);
  }

  /** A THERAPIST request asks Gemini for the base fields and the summary, all required. */
  lemma TherapistRequestAsksForSummary(httpMethod: string, body: BodyRead, env: Environment, outcomes: Outcomes)
    requires ServeSpec(httpMethod, body, env, outcomes).geminiCalled
    requires body.Parsed? && Get(body.value, "mode") == Some(Str("THERAPIST"))
    ensures var schema := ServeSpec(httpMethod, body, env, outcomes).schema;
      && schema.Some? && schema.value.ObjectSchema?
      && schema.value.required == BaseFields + ["therapistSummary"]
      && PropertySchema(schema.value.properties, "therapistSummary") == SummarySchema
  {
    SchemaFollowsMode(httpMethod, body, env, outcomes);
  }

  /** A 200 answer to a request comes with the USER row and then the AEGIS row, and the AEGIS row
      holds exactly the body sent back: the score is not repaired on this path. */
  lemma SuccessWritesBothRows(httpMethod: string, body: BodyRead, env: Environment, outcomes: Outcomes)
    requires httpMethod != "OPTIONS"
    requires ServeSpec(httpMethod, body, env, outcomes).response.status == 200
    ensures var run := ServeSpec(httpMethod, body, env, outcomes);
      && body.Parsed? && HasParameters(body.value) && outcomes.generation.Generated?
      && run.chats == [UserRow(body.value), AegisRow(body.value, outcomes.generation.value)]
      && run.response.body == JsonBody(outcomes.generation.value)
      && run.chats[1].content == run.response.body.json
  {
  }

  /** A summary row is written only for a THERAPIST request whose response has a truthy summary;
      a PRIVATE request never writes one. */
  lemma SummaryOnlyInTherapistMode(httpMethod: string, body: BodyRead, env: Environment, outcomes: Outcomes)
    requires ServeSpec(httpMethod, body, env, outcomes).summaries != []
    ensures var run := ServeSpec(httpMethod, body, env, outcomes);
      && body.Parsed? && HasParameters(body.value)
      && NormaliseMode(Get(body.value, "mode").value) == Therapist
      && outcomes.generation.Generated?
      && Truthy(Get(outcomes.generation.value, "therapistSummary"))
      && run.summaries == [SummaryRow(Get(body.value, "teenId").value, Get(outcomes.generation.value, "therapistSummary").value)]
  {
  }

  /** In PRIVATE mode a summary the model supplied anyway is not stripped: it is stored inside the
      AEGIS row and returned, but no summary row is written. */
  lemma PrivateSummaryStaysInChatRow(httpMethod: string, request: Json, env: Environment, outcomes: Outcomes)
    requires httpMethod != "OPTIONS" && request != Null && HasParameters(request)
    requires NormaliseMode(Get(request, "mode").value) == Private
    requires env.clientError.None? && GeminiApi.KeyConfigured(env.apiKey)
    requires outcomes.userInsert.Inserted? && outcomes.aegisInsert.Inserted?
    requires outcomes.generation.Generated? && Truthy(Get(outcomes.generation.value, "therapistSummary"))
    ensures var run := ServeSpec(httpMethod, Parsed(request), env, outcomes);
      && run.response == Response(200, JsonBody(outcomes.generation.value))
      && run.summaries == []
      && Get(run.chats[1].content, "therapistSummary") == Get(outcomes.generation.value, "therapistSummary")
  {
  }

  /** A THERAPIST answer with a truthy summary, when every step succeeds, is stored in both
      tables and answered 200. */
  lemma TherapistSummaryIsStored(httpMethod: string, request: Json, env: Environment, outcomes: Outcomes)
    requires httpMethod != "OPTIONS" && HasParameters(request)
    requires env.clientError.None? && GeminiApi.KeyConfigured(env.apiKey)
    requires outcomes.userInsert.Inserted? && outcomes.aegisInsert.Inserted? && outcomes.summaryInsert.Inserted?
    requires outcomes.generation.Generated? && WantsSummary(request, outcomes.generation.value)
    ensures var run := ServeSpec(httpMethod, Parsed(request), env, outcomes);
      var g := outcomes.generation.value;
      && run.response == Response(200, JsonBody(g))
      && run.chats == [UserRow(request), AegisRow(request, g)]
      && run.summaries == [SummaryRow(Get(request, "teenId").value, Get(g, "therapistSummary").value)]
  {
  }

  /** When every step succeeds and the model answers with an object, the request is answered 200
      with that object, in either mode. */
  lemma AllStepsSucceedAnswer200(httpMethod: string, request: Json, env: Environment, outcomes: Outcomes)
    requires httpMethod != "OPTIONS" && HasParameters(request)
    requires env.clientError.None? && GeminiApi.KeyConfigured(env.apiKey)
    requires outcomes.userInsert.Inserted? && outcomes.aegisInsert.Inserted? && outcomes.summaryInsert.Inserted?
    requires outcomes.generation.Generated? && outcomes.generation.value.Obj?
    ensures var run := ServeSpec(httpMethod, Parsed(request), env, outcomes);
      && run.response == Response(200, JsonBody(outcomes.generation.value))
      && run.chats == [UserRow(request), AegisRow(request, outcomes.generation.value)]
  {
  }

  /** A failed summary insert fails the whole request; both chat rows stay written. */
  lemma FailedSummaryInsertFails(httpMethod: string, request: Json, env: Environment, outcomes: Outcomes)
    requires httpMethod != "OPTIONS" && request != Null && HasParameters(request)
    requires env.clientError.None? && GeminiApi.KeyConfigured(env.apiKey)
    requires outcomes.userInsert.Inserted? && outcomes.aegisInsert.Inserted?
    requires outcomes.generation.Generated? && WantsSummary(request, outcomes.generation.value)
    requires outcomes.summaryInsert.InsertFailed?
    ensures var run := ServeSpec(httpMethod, Parsed(request), env, outcomes);
      && run.response == ErrorResponse(ErrorObject(outcomes.summaryInsert.message))
      && run.chats == [UserRow(request), AegisRow(request, outcomes.generation.value)]
      && run.summaries == []
  {
  }

  /** A failed chat insert answers 500 with the insert's own error message; after a failed
      USER insert, Gemini is not called. */
  lemma FailedChatInsertAnswersItsError(httpMethod: string, request: Json, env: Environment, outcomes: Outcomes)
    requires httpMethod != "OPTIONS" && request != Null && HasParameters(request) && env.clientError.None?
    requires outcomes.userInsert.InsertFailed? ||
      (GeminiApi.KeyConfigured(env.apiKey) && outcomes.generation.Generated? && outcomes.aegisInsert.InsertFailed?)
    ensures var run := ServeSpec(httpMethod, Parsed(request), env, outcomes);
      var failed := if outcomes.userInsert.InsertFailed? then outcomes.userInsert else outcomes.aegisInsert;
      && run.response == ErrorResponse(ErrorObject(failed.message))
      && run.summaries == []
      && (outcomes.userInsert.InsertFailed? ==> run.chats == [] && !run.geminiCalled)
      && (outcomes.userInsert.Inserted? ==> run.chats == [UserRow(request)])
  {
  }
}
