/** The response envelope of the cloud.ca API (pkg/cloudca/api/response.go):
    decoding an already-read HTTP body into a `Response`, classifying its
    status code, and rendering an `ErrorResponse` as text. */
module ApiResponse {
  import opened Json

  const OK := 200
  const MultipleChoices := 300
  const BadRequest := 400
  const NotFound := 404

  /** One structured error of the `errors` array. A nil `Context` is `None`. */
  datatype ApiError = ApiError(errorCode: string, message: string, context: Option<map<string, Json>>)

  /** The decoded envelope. The Go slices and maps that stay nil when their key
      is absent are `Option`s; the two strings keep "" when absent. */
  datatype Response = Response(
    taskID: string,
    taskStatus: string,
    statusCode: int,
    data: Option<seq<byte>>,
    errors: Option<seq<ApiError>>,
    metaData: Option<map<string, Json>>)
  {
    /** `Response.IsError`: the status code alone decides. */
    predicate IsError()
      ensures IsError() <==> statusCode < 200 || 300 <= statusCode
    {
      !IsInOKRange(statusCode)
    }
  }

  /** The Go `error` values this model produces or passes along. */
  datatype Failure =
    | ErrorResponse(response: Response)  // api.ErrorResponse
    | UnexpectedStatus(statusCode: int)  // "Unexpected. Received status ... but no errors in response body"
    | Malformed                          // encoding/json rejected a value
    | External(message: string)          // an error from code outside the model (network, mocks)

  datatype Result<T> = Ok(value: T) | Err(error: Failure)

  /** `isInOKRange`: exactly the 2xx codes; 400 and 404 are outside. */
  predicate IsInOKRange(statusCode: int)
    ensures IsInOKRange(statusCode) <==> 200 <= statusCode <= 299
    ensures statusCode == NotFound || statusCode == BadRequest ==> !IsInOKRange(statusCode)
  {
    statusCode >= OK && statusCode < MultipleChoices
  }

  /** `IsError` is the negation of the range test and ignores `Errors`. */
  lemma IsErrorIgnoresErrors(r: Response, errors: Option<seq<ApiError>>)
    ensures r.IsError() <==> !IsInOKRange(r.statusCode)
    ensures r.(errors := errors).IsError() == r.IsError()
  {
  }

  // ---------------------------------------------------------------------------
  // Decoding the members of the envelope

  /** The five top-level keys NewResponse looks at. */
  const EnvelopeKeys: set<string> := {"taskId", "taskStatus", "data", "metadata", "errors"}

  /** A present envelope key holding JSON `null` leaves a nil `*json.RawMessage`
      that NewResponse dereferences; callers never hand it such a body. */
  predicate KnownKeysNonNull(body: Body) {
    body.Object? ==>
      forall k :: k in body.fields && k in EnvelopeKeys ==> body.fields[k].value != JNull
  }

  /** `json.Unmarshal(raw, &metadata)` with `metadata` a `map[string]interface{}`. */
  function MetadataValue(v: Json): Option<map<string, Json>>
  {
    if v.JObject? then Some(v.fields) else None
  }

  /** `Context`: an object, or `null`/absent for a nil map. */
  function ContextValue(v: Json): Option<Option<map<string, Json>>>
  {
    match v
    case JObject(m) => Some(Some(m))
    case JNull => Some(None)
    case _ => None
  }

  /** One element of `errors` decoded into an `Error` struct: `null` leaves the
      zero struct, absent members keep their zero values, a member of the wrong
      type is an error, unknown members are ignored. */
  function DecodeApiError(v: Json): Option<ApiError>
  {
    match v
    case JNull => Some(ApiError("", "", None))
    case JObject(f) =>
      var code := if "errorCode" in f then StringValue(f["errorCode"]) else Some("");
      var message := if "message" in f then StringValue(f["message"]) else Some("");
      var context := if "context" in f then ContextValue(f["context"]) else Some(None);
      if code.Some? && message.Some? && context.Some? then
        Some(ApiError(code.value, message.value, context.value))
      else
        None
    case _ => None
  }

  /** The array of errors, element by element: it decodes exactly when every
      element does, and then keeps length and order. */
  function DecodeErrors(items: seq<Json>): (r: Option<seq<ApiError>>)
    ensures r.Some? <==> forall i :: 0 <= i < |items| ==> DecodeApiError(items[i]).Some?
    ensures r.Some? ==> |r.value| == |items|
    ensures r.Some? ==> forall i :: 0 <= i < |items| ==> r.value[i] == DecodeApiError(items[i]).value
  {
    if items == [] then Some([])
    else
      var head := DecodeApiError(items[0]);
      var tail := DecodeErrors(items[1..]);
      if head.Some? && tail.Some? then Some([head.value] + tail.value) else None
  }

  /** `json.Unmarshal(raw, &errors)` with `errors` a `[]Error` (never `null` here). */
  function ErrorsValue(v: Json): Option<seq<ApiError>>
  {
    if v.JArray? then DecodeErrors(v.items) else None
  }

  /** The members NewResponse decodes, each of which may reject the body. */
  predicate MembersDecode(f: map<string, Raw>) {
    && StringField(f, "taskId").Some?
    && StringField(f, "taskStatus").Some?
    && ("metadata" in f ==> MetadataValue(f["metadata"].value).Some?)
    && ("errors" in f ==> ErrorsValue(f["errors"].value).Some?)
  }

  /** What NewResponse computes from the HTTP status code and the parsed body,
      stated as one expression: the reference for the method below. */
  function DecodeResponse(statusCode: int, body: Body): Result<Response>
    requires KnownKeysNonNull(body)
  {
    match body
    case NotObject => Err(Malformed)
    case Object(f) =>
      if !MembersDecode(f) then Err(Malformed)
      else if "errors" !in f && !IsInOKRange(statusCode) then Err(UnexpectedStatus(statusCode))
      else
        Ok(Response(
          StringField(f, "taskId").value,
          StringField(f, "taskStatus").value,
          statusCode,
          if "data" in f then Some(f["data"].text) else None,
          if "errors" in f then Some(ErrorsValue(f["errors"].value).value) else None,
          if "metadata" in f then Some(MetadataValue(f["metadata"].value).value) else None))
  }

  /** `NewResponse`, from the point where the body has been read and parsed
      into a map of raw members: it fills a zero `Response` member by member
      and returns at the first member that does not decode. */
  method NewResponse(statusCode: int, body: Body) returns (r: Result<Response>)
    requires KnownKeysNonNull(body)
    ensures r == DecodeResponse(statusCode, body)
  {
    var response := Response("", "", 0, None, None, None);
    response := response.(statusCode := statusCode);
    if body.NotObject? {
      return Err(Malformed);
    }
    var responseMap := body.fields;

    if "taskId" in responseMap {
      var v := StringValue(responseMap["taskId"].value);
      if v.None? {
        return Err(Malformed);
      }
      response := response.(taskID := v.value);
    }

    if "taskStatus" in responseMap {
      var v := StringValue(responseMap["taskStatus"].value);
      if v.None? {
        return Err(Malformed);
      }
      response := response.(taskStatus := v.value);
    }

    if "data" in responseMap {
      response := response.(data := Some(responseMap["data"].text));
    }

    if "metadata" in responseMap {
      var metadata := MetadataValue(responseMap["metadata"].value);
      if metadata.None? {
        return Err(Malformed);
      }
      response := response.(metaData := Some(metadata.value));
    }

    if "errors" in responseMap {
      var errors := ErrorsValue(responseMap["errors"].value);
      if errors.None? {
        return Err(Malformed);
      }
      response := response.(errors := Some(errors.value));
    } else if !IsInOKRange(statusCode) {
      return Err(UnexpectedStatus(statusCode));
    }

    return Ok(response);
  }

  // ---------------------------------------------------------------------------
  // Properties of the decoder

  /** A non-2xx status without an `errors` member never yields a Response. */
  lemma RejectsErrorStatusWithoutErrors(statusCode: int, body: Body)
    requires KnownKeysNonNull(body)
    requires body.Object? && "errors" !in body.fields
    requires !IsInOKRange(statusCode)
    ensures DecodeResponse(statusCode, body).Err?
    ensures MembersDecode(body.fields) ==> DecodeResponse(statusCode, body) == Err(UnexpectedStatus(statusCode))
  {
  }

  /** Decoding succeeds exactly for an object whose members decode and which
      either carries `errors` or has a 2xx status. */
  lemma DecodeSucceedsIff(statusCode: int, body: Body)
    requires KnownKeysNonNull(body)
    ensures DecodeResponse(statusCode, body).Ok? <==>
      body.Object? && MembersDecode(body.fields) && ("errors" in body.fields || IsInOKRange(statusCode))
  {
  }

  /** With a decodable `errors` array the status code does not matter, and
      `Errors` is the decoded array in input order. */
  lemma ErrorsKeptInOrder(statusCode: int, body: Body, items: seq<Json>)
    requires KnownKeysNonNull(body)
    requires body.Object? && MembersDecode(body.fields)
    requires "errors" in body.fields && body.fields["errors"].value == JArray(items)
    ensures DecodeResponse(statusCode, body).Ok?
    ensures var errs := DecodeResponse(statusCode, body).value.errors;
      && errs.Some? && |errs.value| == |items|
      && forall i :: 0 <= i < |items| ==> errs.value[i] == DecodeApiError(items[i]).value
  {
  }

  /** On success every member is set exactly when its key is present, absent
      keys keep their zero values, the status code is copied, and `Data` is the
      undecoded text of the `data` member. */
  lemma DecodedMembers(statusCode: int, body: Body)
    requires KnownKeysNonNull(body)
    requires DecodeResponse(statusCode, body).Ok?
    ensures body.Object?
    ensures var r := DecodeResponse(statusCode, body).value; var f := body.fields;
      && r.statusCode == statusCode
      && r.taskID == (if "taskId" in f then f["taskId"].value.s else "")
      && r.taskStatus == (if "taskStatus" in f then f["taskStatus"].value.s else "")
      && (r.data.Some? <==> "data" in f)
      && ("data" in f ==> r.data.value == f["data"].text)
      && (r.metaData.Some? <==> "metadata" in f)
      && ("metadata" in f ==> r.metaData.value == f["metadata"].value.fields)
      && (r.errors.Some? <==> "errors" in f)
  {
  }

  /** A body that is not an object, or a `taskId`, `taskStatus`, `metadata` or
      `errors` of the wrong JSON type, makes decoding fail. */
  lemma WrongTypesFail(statusCode: int, body: Body)
    requires KnownKeysNonNull(body)
    requires
      || body.NotObject?
      || ("taskId" in body.fields && !body.fields["taskId"].value.JString?)
      || ("taskStatus" in body.fields && !body.fields["taskStatus"].value.JString?)
      || ("metadata" in body.fields && !body.fields["metadata"].value.JObject?)
      || ("errors" in body.fields && !body.fields["errors"].value.JArray?)
    ensures DecodeResponse(statusCode, body) == Err(Malformed)
  {
  }

  /** The task acknowledgement of the client test: all four optional members
      present, status 200. `d` and the other texts are the members' raw bytes. */
  lemma DecodesTaskAcknowledgement(t: seq<byte>, st: seq<byte>, d: seq<byte>, m: seq<byte>, dataValue: Json)
    requires dataValue != JNull
    ensures var meta := map["meta_key" := JString("meta_value")];
      var body := Object(map[
        "taskId" := Raw(t, JString("test_task_id")),
        "taskStatus" := Raw(st, JString("test_task_status")),
        "data" := Raw(d, dataValue),
        "metadata" := Raw(m, JObject(meta))]);
      && KnownKeysNonNull(body)
      && DecodeResponse(200, body) == Ok(Response("test_task_id", "test_task_status", 200, Some(d), None, Some(meta)))
  {
  }

  /** The error body of the client test: two structured errors, status 400,
      kept in order, and classified as an error. */
  lemma DecodesTwoErrors(e: seq<byte>)
    ensures var items := [
        JObject(map["errorCode" := JString("FOO_ERROR"), "message" := JString("message1")]),
        JObject(map["errorCode" := JString("BAR_ERROR"), "message" := JString("message2")])];
      var body := Object(map["errors" := Raw(e, JArray(items))]);
      && KnownKeysNonNull(body)
      && DecodeResponse(400, body) ==
         Ok(Response("", "", 400, None,
                     Some([ApiError("FOO_ERROR", "message1", None), ApiError("BAR_ERROR", "message2", None)]), None))
      && DecodeResponse(400, body).value.IsError()
  {
    var items := [
        JObject(map["errorCode" := JString("FOO_ERROR"), "message" := JString("message1")]),
        JObject(map["errorCode" := JString("BAR_ERROR"), "message" := JString("message2")])];
    var expected := [ApiError("FOO_ERROR", "message1", None), ApiError("BAR_ERROR", "message2", None)];
    assert DecodeApiError(items[0]) == Some(expected[0]);
    assert DecodeApiError(items[1]) == Some(expected[1]);
    assert DecodeErrors(items).value == expected;
  }

  // ---------------------------------------------------------------------------
  // ErrorResponse.Error

  /** The standard library's `strconv.Itoa`: decimal digits, with a leading '-'
      for negative numbers. */
  function Itoa(n: int): (s: string)
    ensures |s| >= 1
    ensures forall i :: 0 <= i < |s| ==> s[i] == '-' || '0' <= s[i] <= '9'
  {
    if n < 0 then "-" + NatToString(-n) else NatToString(n)
  }

  function NatToString(n: nat): (s: string)
    ensures |s| >= 1
    ensures forall i :: 0 <= i < |s| ==> '0' <= s[i] <= '9'
  {
    if n < 10 then [DigitChar(n)] else NatToString(n / 10) + [DigitChar(n % 10)]
  }

  function DigitChar(d: nat): (c: char)
    requires d < 10
    ensures '0' <= c <= '9'
  {
    ['0', '1', '2', '3', '4', '5', '6', '7', '8', '9'][d]
  }

  function DigitValue(c: char): nat
  {
    if '0' <= c <= '9' then (c as int - '0' as int) else 0
  }

  /** Reading decimal digits back, the partner of NatToString. */
  function ParseNat(s: string): nat
  {
    if s == [] then 0 else 10 * ParseNat(s[..|s| - 1]) + DigitValue(s[|s| - 1])
  }

  lemma {:induction false} NatToStringRoundTrip(n: nat)
    ensures ParseNat(NatToString(n)) == n
  {
    var s := NatToString(n);
    if n < 10 {
      assert s[..0] == [];
    } else {
      NatToStringRoundTrip(n / 10);
      assert s[..|s| - 1] == NatToString(n / 10);
    }
  }

  /** The Errors slice that `range` iterates over (a nil slice is empty). */
  function ErrorsOf(r: Response): seq<ApiError>
  {
    if r.errors.Some? then r.errors.value else []
  }

  function StatusLine(statusCode: int): string
  {
    "[ERROR] Received HTTP status code " + Itoa(statusCode) + "\n"
  }

  /** `marshal` is `json.Marshal` of the context (its error is discarded). */
  function EntryLine(e: ApiError, marshal: Option<map<string, Json>> -> string): string
  {
    "[ERROR] Error Code: " + e.errorCode + ", Message: " + e.message + ", Context: " + marshal(e.context) + "\n"
  }

  function EntryLines(es: seq<ApiError>, marshal: Option<map<string, Json>> -> string): string
  {
    if es == [] then "" else EntryLines(es[..|es| - 1], marshal) + EntryLine(es[|es| - 1], marshal)
  }

  /** The message of an ErrorResponse: the status line, then one line per
      structured error in order. */
  function ErrorText(r: Response, marshal: Option<map<string, Json>> -> string): string
  {
    StatusLine(r.statusCode) + EntryLines(ErrorsOf(r), marshal)
  }

  /** `ErrorResponse.Error`, appending one line per error to the status line. */
  method Error(r: Response, marshal: Option<map<string, Json>> -> string) returns (errorStr: string)
    ensures errorStr == ErrorText(r, marshal)
  {
    errorStr := "[ERROR] Received HTTP status code " + Itoa(r.statusCode) + "\n";
    var errors := ErrorsOf(r);
    for i := 0 to |errors|
      invariant errorStr == StatusLine(r.statusCode) + EntryLines(errors[..i], marshal)
    {
      var e := errors[i];
      var context := marshal(e.context);
      var line := "[ERROR] Error Code: " + e.errorCode + ", Message: " + e.message + ", Context: " + context + "\n";
      assert line == EntryLine(e, marshal);
      assert errors[..i + 1][..i] == errors[..i];
      assert EntryLines(errors[..i + 1], marshal) == EntryLines(errors[..i], marshal) + line;
      errorStr := errorStr + line;
    }
    assert errors[..|errors|] == errors;
  }

  function CountChar(s: string, c: char): nat
  {
    if s == [] then 0 else CountChar(s[..|s| - 1], c) + (if s[|s| - 1] == c then 1 else 0)
  }

  lemma {:induction false} CountCharAppend(a: string, b: string, c: char)
    ensures CountChar(a + b, c) == CountChar(a, c) + CountChar(b, c)
  {
    if b != [] {
      assert (a + b)[..|a + b| - 1] == a + b[..|b| - 1];
      CountCharAppend(a, b[..|b| - 1], c);
    } else {
      assert a + b == a;
    }
  }

  lemma {:induction false} CountCharAbsent(s: string, c: char)
    requires forall i :: 0 <= i < |s| ==> s[i] != c
    ensures CountChar(s, c) == 0
  {
    if s != [] {
      CountCharAbsent(s[..|s| - 1], c);
    }
  }

  predicate NoNewline(s: string) {
    forall i :: 0 <= i < |s| ==> s[i] != '\n'
  }

  /** When no error code, message or marshalled context contains a newline,
      the message has exactly one line per error plus the status line, and it
      ends with a newline. */
  lemma {:induction false} ErrorTextLineCount(r: Response, marshal: Option<map<string, Json>> -> string)
    requires forall e :: e in ErrorsOf(r) ==> NoNewline(e.errorCode) && NoNewline(e.message) && NoNewline(marshal(e.context))
    ensures CountChar(ErrorText(r, marshal), '\n') == 1 + |ErrorsOf(r)|
    ensures ErrorText(r, marshal)[|ErrorText(r, marshal)| - 1] == '\n'
  {
    var head := "[ERROR] Received HTTP status code " + Itoa(r.statusCode);
    CountCharAbsent(head, '\n');
    CountCharAppend(head, "\n", '\n');
    assert StatusLine(r.statusCode) == head + "\n";
    EntryLinesCount(ErrorsOf(r), marshal);
    CountCharAppend(StatusLine(r.statusCode), EntryLines(ErrorsOf(r), marshal), '\n');
  }

  lemma {:induction false} EntryLinesCount(es: seq<ApiError>, marshal: Option<map<string, Json>> -> string)
    requires forall e :: e in es ==> NoNewline(e.errorCode) && NoNewline(e.message) && NoNewline(marshal(e.context))
    ensures CountChar(EntryLines(es, marshal), '\n') == |es|
  {
    if es != [] {
      var last := es[|es| - 1];
      assert last in es;
      assert forall e :: e in es[..|es| - 1] ==> e in es;
      EntryLinesCount(es[..|es| - 1], marshal);
      var body := "[ERROR] Error Code: " + last.errorCode + ", Message: " + last.message + ", Context: " + marshal(last.context);
      CountCharAbsent(body, '\n');
      CountCharAppend(body, "\n", '\n');
      assert EntryLine(last, marshal) == body + "\n";
      CountCharAppend(EntryLines(es[..|es| - 1], marshal), EntryLine(last, marshal), '\n');
    }
  }
}
