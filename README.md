# cloud.ca client core, modelled in Dafny

This project models the part of the `cca` command-line client for the cloud.ca
REST API that has behaviour worth stating:

- the **response envelope** (`Json`, `ApiResponse`): an HTTP body, already read and
  parsed into its top-level members, is decoded into a `Response` whose optional
  members (`taskId`, `taskStatus`, `data`, `metadata`, `errors`) are set exactly when
  present; a non-2xx status without `errors` is a protocol violation; `IsError`
  classifies by status code alone; an `ErrorResponse` renders one line per
  structured error;
- the **transport** (`ApiClient`): the client value and its getters, `buildURL`
  (trimmed endpoint, query built from the options map) and the part of `Do` that
  builds the outgoing request (body, method, headers) and passes errors through;
- the **task service** (`TaskService`): `Get` fetches `tasks/<id>` once; `Poll`
  keeps fetching while the task is `PENDING` and stops at the first other status;
- the **instance service** (`InstanceService`): `Exists` turns a 404 `ErrorResponse`
  into "does not exist", the action operations turn (bytes, error) into (bool, error);
- the **output-format registry** (`OutputFormat`), the **global flag normalisation**
  (`CmdUtil.GlobalFlags`, a class whose methods update its fields) and the
  **version string** (`VersionInfo.BuildInfo`, a class standing for the three
  link-time package variables).

Everything the code hands to a foreign library or to the network is a parameter:
`decode` is `json.Unmarshal` of bytes into a map of raw members, `marshal` is
`json.Marshal` of an error context, `encode` is `url.Values.Encode`,
`newRequestError` and `roundTrip` are the outcomes of `http.NewRequest` and
`httpClient.Do`, a task poll runs against a script of `Do` replies (the ordered
mock expectations of the tests), and the clock, `runtime.GOOS` and
`runtime.GOARCH` are strings passed to `Version`.

A parsed body is `Body`: `Object(map<string, Raw>)`, where a `Raw` is the undecoded
text of a member together with its decoded `Json` value (Go's `*json.RawMessage`),
or `NotObject` for anything `json.Unmarshal` would not put into a map. A JSON
`null` body leaves Go's map nil, which behaves as an empty map, so it is
`Object(map[])`.

The task service and the instance service are modelled from their tests
(`task.go` and `instance.go` are not part of this model). Where the tests leave a
case open, the model makes these choices: `Get` treats a response as failed when
`IsError()` holds (the test's failing reply has status 400); a task body that does
not decode as an object, or an `id`/`status`/`created` member that is neither a
string nor `null`, is a decoding error; a `null` or missing member keeps the zero
value `""`. `ResetPassword` likewise returns `""` with a decoding error when the
body does not decode as an object or its `password` member is neither a string
nor `null`; a `null` or missing `password` gives `""` with no error.

`Do` defaults a local copy of the method to `"GET"` but passes `request.Method`
unchanged to `http.NewRequest`; the model does the same and its contract says
that the method handed to `http.NewRequest` is the request's own (net/http then
sends an empty method as GET by itself).

## Model

| member | source | states |
|---|---|---|
| Json.StringValue | pkg/cloudca/api/response.go:64-76 | a JSON string decodes into a Go string field as itself and `null` leaves it ""; every other JSON type is a decoding error |
| ApiResponse.IsInOKRange | pkg/cloudca/api/response.go:123-125 | the OK range holds exactly for 200..299; 400 and 404 are outside it |
| ApiResponse.Response.IsError | pkg/cloudca/api/response.go:106-108 | a response is an error exactly when its status code is below 200 or at least 300 |
| ApiResponse.IsErrorIgnoresErrors | pkg/cloudca/api/response.go:106-108 | `IsError` is the negation of the OK-range test and does not change when `Errors` does |
| ApiResponse.DecodeErrors | pkg/cloudca/api/response.go:91-97 | the `errors` array decodes exactly when every element does, keeping its length and its order element by element |
| ApiResponse.NewResponse | pkg/cloudca/api/response.go:56-102 | the member-by-member decoder with early returns computes exactly the reference decoding `DecodeResponse` |
| ApiResponse.RejectsErrorStatusWithoutErrors | pkg/cloudca/api/response.go:91-100 | a status outside [200,300) with no `errors` member never yields a Response; if the other members decode, the failure is the unexpected-status error |
| ApiResponse.DecodeSucceedsIff | pkg/cloudca/api/response.go:58-102 | decoding succeeds iff the body is an object, its members have the right JSON types (numbers are not range-checked), and it has `errors` or a 2xx status |
| ApiResponse.ErrorsKeptInOrder | pkg/cloudca/api/response.go:91-97 | with a decodable `errors` array decoding succeeds for any status, and `Errors` is the decoded array in input order |
| ApiResponse.DecodedMembers | pkg/cloudca/api/response.go:57-89 | on success the status code is copied, `TaskID`, `TaskStatus`, `Data`, `MetaData`, `Errors` are set iff their key is present, absent ones keep zero values, `Data` is the raw text of `data` |
| ApiResponse.WrongTypesFail | pkg/cloudca/api/response.go:58-97 | a non-object body, or a `taskId`, `taskStatus`, `metadata` or `errors` of the wrong JSON type, makes decoding fail |
| ApiResponse.DecodesTaskAcknowledgement | pkg/cloudca/api/api_test.go:27-60 | the test's status-200 body with four members decodes to the expected Response with no errors |
| ApiResponse.DecodesTwoErrors | pkg/cloudca/api/api_test.go:63-91 | the test's status-400 body with two errors decodes to both errors in order, and the Response is an error |
| ApiResponse.Error | pkg/cloudca/api/response.go:114-121 | the loop builds the status line followed by one error line per element of `Errors`, in order |
| ApiResponse.ErrorTextLineCount | pkg/cloudca/api/response.go:114-121 | when no code, message or context contains a newline the text has 1 + \|Errors\| newlines and ends with one |
| ApiResponse.NatToStringRoundTrip | pkg/cloudca/api/response.go:115 | the decimal rendering of the status code reads back as the same number |
| ApiClient.NewClient | pkg/cloudca/api/api.go:71-87 | the getters of a new client return the URL and key it was built with |
| ApiClient.TrimLeftSlash | pkg/cloudca/api/api.go:109 | the left trim is a suffix of the endpoint, everything before it is '/', and it does not start with '/' |
| ApiClient.TrimRightSlash | pkg/cloudca/api/api.go:109 | the right trim is a prefix of the endpoint, everything after it is '/', and it does not end with '/' |
| ApiClient.Trim | pkg/cloudca/api/api.go:109 | the trimmed endpoint is no longer than the original and has no '/' at either end |
| ApiClient.TrimShape | pkg/cloudca/api/api.go:109 | the trimmed endpoint is a contiguous piece of the original with only '/' around it and no '/' at either end |
| ApiClient.TrimUnslashed | pkg/cloudca/api/api.go:109 | an endpoint with no '/' at either end is left as it is |
| ApiClient.TrimIdempotent | pkg/cloudca/api/api.go:109 | trimming twice equals trimming once |
| ApiClient.QueryOfOptions | pkg/cloudca/api/api.go:103-108 | nil or empty options give an empty query; otherwise every option is added under its key with its value |
| ApiClient.BuildURL | pkg/cloudca/api/api.go:102-111 | the loop over the options builds that query, and the URL text is base URL, "/", trimmed endpoint, "?", encoded query, in that order |
| ApiClient.EmptyOptionsURL | pkg/cloudca/api/api.go:103-109 | with nil or empty options the URL text ends in a bare "?" |
| ApiClient.Do | pkg/cloudca/api/api.go:44-67 | a body reader exists iff the request has a body; the method handed to `http.NewRequest` is `request.Method` unchanged; `MC-Api-Key` and `Content-Type: application/json` headers are added; a `NewRequest` or transport error is returned unchanged with nothing decoded; otherwise the result is the decoded response |
| TaskService.ParseTask | pkg/cloudca/services/task_test.go:27-46 | the data decodes to a task exactly when it is an object whose `id`, `status`, `created` are strings, `null` or absent; the task carries those strings and the raw `result` text; any other data is a decoding error |
| TaskService.Get | pkg/cloudca/services/task_test.go:16-101 | the single request sent is `GET tasks/<id>` with no body and no options; a failing `Do` is returned unchanged, an error-status response becomes its `ErrorResponse`, and a 2xx response is parsed as a task |
| TaskService.GetDecodesTask | pkg/cloudca/services/task_test.go:16-47 | a 2xx response whose data holds id, status, created and result gives that task, `Result` being the raw result bytes |
| TaskService.Poll | pkg/cloudca/services/task_test.go:103-142 | the polling loop computes the reference run `PollRun`, and every call it makes is `GET tasks/<id>` |
| TaskService.PollStopsAtFirstNonPending | pkg/cloudca/services/task_test.go:129-136 | after k pending replies polling makes exactly k + 1 calls and returns what the first non-pending reply decided |
| TaskService.PollAllPending | pkg/cloudca/services/task_test.go:129-133 | replies that all stay pending are used up one call each |
| TaskService.PollPendingPendingSuccess | pkg/cloudca/services/task_test.go:114-141 | PENDING, PENDING, SUCCESS gives exactly three calls and the result bytes of the third reply |
| TaskService.PollFailsAfterPending | pkg/cloudca/services/task_test.go:144-182 | a FAILED task or an error-status reply after pending rounds ends polling with an error, not a result |
| InstanceService.Get | pkg/cloudca/services/cloudca/instance_test.go:127-149 | when the entity service fails, Get returns its error unchanged and no instance |
| InstanceService.Exists | pkg/cloudca/services/cloudca/instance_test.go:755-816 | true iff Get succeeds, then with no error; false with no error for a 404 `ErrorResponse`; false with any other error unchanged |
| InstanceService.Perform | pkg/cloudca/services/cloudca/instance_test.go:281-365 | an action reports true exactly when the call returned no error, and passes the error on unchanged even when bytes came with it |
| InstanceService.ResetPassword | pkg/cloudca/services/cloudca/instance_test.go:691-711 | on an entity-service error the password is "" and the error is returned unchanged; any error comes with "" |
| InstanceService.ResetPasswordReturnsPassword | pkg/cloudca/services/cloudca/instance_test.go:671-689 | on success the `password` member of the body is returned with no error |
| OutputFormat.Get | pkg/output/util.go:7-12 | the registry is ["json", "yaml"] in that order and each element is a known format |
| OutputFormat.Has | pkg/output/util.go:16-23 | the scan answers true iff the format is exactly "json" or "yaml" (case-sensitive; "" is unknown) |
| OutputFormat.FormatStrings | pkg/output/util.go:27-38 | the builder loop yields "[" + the formats joined by ", " + "]", i.e. "[json, yaml]" |
| OutputFormat.JoinLength | pkg/output/util.go:30-35 | joining n ≥ 1 formats adds exactly n - 1 separators |
| CmdUtil.NormalizedFormat | pkg/cmdutil/flags.go:72-78 | a known format is kept and any other is replaced by the default |
| CmdUtil.NormalizedFormatIdempotent | pkg/cmdutil/flags.go:72-78 | normalising the output format a second time changes nothing |
| CmdUtil.GlobalFlags.ParseLogLevel | pkg/cmdutil/flags.go:50-60 | never returns an error and modifies no flag |
| CmdUtil.GlobalFlags.ParseColorOutput | pkg/cmdutil/flags.go:62-70 | `ColorOutput` becomes the negated `nocolor` flag when it reads, and is unchanged on a read error; no error |
| CmdUtil.GlobalFlags.ParseOutputFormat | pkg/cmdutil/flags.go:72-78 | `OutputFormat` is the normalised format; no error |
| CmdUtil.GlobalFlags.Normalize | pkg/cmdutil/flags.go:36-48 | runs log level, colour, output format; always returns no error; only `ColorOutput` and `OutputFormat` change, as the two steps say |
| VersionInfo.NextVersion | cmd/cca/version/version.go:54-59 | the new version is non-empty, starts with the (defaulted) old version, and ends with a non-empty commit hash |
| VersionInfo.NextVersionShape | cmd/cca/version/version.go:54-59 | an empty version becomes "v0.0.1-dev"; that defaulted version gets " " + hash appended exactly when the hash is non-empty and not already its suffix, and is kept otherwise |
| VersionInfo.NextVersionIdempotent | cmd/cca/version/version.go:57-59 | the commit hash is appended only when it is not already a suffix, so a second pass leaves the version alone |
| VersionInfo.BuildInfo.Version | cmd/cca/version/version.go:53-65 | the version is defaulted and extended, an empty build date takes the clock and a non-empty one is kept, and the result is version, " ", GOOS "/" GOARCH, " BuildDate: ", build date |
| VersionInfo.VersionIdempotent | cmd/cca/version/version.go:53-65 | a second call on the same platform returns the same string and does not append the commit hash again |

## Left out

- Network and HTTP I/O: `httpClient.Do`, reading and closing the body, and the `fmt.Printf` in the deferred close; `Do` receives their outcome as a parameter and `NewResponse` starts from the parsed body.
- ApiClient.Do: net/http sends a request whose method is `""` as GET; the model states the method handed to `http.NewRequest`, not the one on the wire.
- OutputFormat.Get: Go returns the package-level slice itself, so a caller writing into it would change the registry; the model returns a value and does not capture that aliasing.
- `NewInsecureClient`'s TLS configuration: library configuration with no behaviour of its own beyond `NewClient`.
- `url.Values.Encode`, `url.Parse`/`String`, header-name canonicalisation of `http.Header.Add`, and byte-level `encoding/json`: foreign libraries. `BuildURL` returns the text handed to `url.Parse`; headers are kept as added.
- ApiClient.BuildURL: a text `url.Parse` rejects (a bad escape such as `"a%zz"` in the endpoint, a space in the host of the API URL) makes `buildURL` panic on the nil `*url.URL`, so `Do` never reaches `http.NewRequest`; the model does not capture this and always yields the text.
- encoding/json's case-insensitive matching of struct field names: the model matches `errorCode`, `message`, `context` and `password` exactly.
- ApiResponse.NewResponse: a present envelope member holding `null` is excluded by a precondition, because the code dereferences the resulting nil pointer.
- ApiResponse.NewResponse: numbers under `metadata` and in an error's `context` are kept as their literal text and not converted to float64, so a number outside float64's range (`{"metadata": {"x": 1e400}}`), which makes `json.Unmarshal` and hence the source fail, is accepted by the model, and large integers keep digits that Go would round.
- ApiResponse.DecodeSucceedsIff: "the right types" means JSON types only; for the float64 range check on numbers just described, the source fails where this lemma says decoding succeeds.
- The text of Go error messages (`r.Status` in the unexpected-status error, json error texts): errors are kept as values (`UnexpectedStatus(code)`, `Malformed`).
- TaskService.Poll: its second argument (10 in the tests), the sleep between rounds and what happens when a try budget runs out are not modelled, since `task.go` is not part of this model and no test exercises them; a script that ends while pending gives `ScriptExhausted`.
- Instance decoding and listing (`Get`'s field mapping, `List`, `Create`) and the other entity services: records filled by encoding/json; only their error passthrough is modelled, through `InstanceService.Get`.
- The endpoint and operation names each instance action sends to the entity service: their constants are not part of this model.
- `DefaultOutputFormat` and `DefaultLogLevel`: their definitions are not part of this model, so the default format is a parameter of `ParseOutputFormat` and `Normalize`.
- CmdUtil.GlobalFlags.ParseLogLevel: its effect on the process-wide logger (`logrus.SetLevel`) and the warnings it logs are not modelled.
- CmdUtil.GlobalFlags.ParseColorOutput and CmdUtil.GlobalFlags.ParseOutputFormat: the `logrus.Warnf` calls they make (on a flag read error, and on an unknown output format) are not modelled.
- Cobra command wiring, help text, completion scripts, `Main`, the CLI constructors around the external go-cloudca library, the output builder and the description helper.
