# Oversecured upload step, modelled in Dafny

This project models `main.go` of the Oversecured Bitrise step. The step publishes an Android artifact (`.apk` or `.aab`) to the Oversecured scanning service in four stages:

1. It validates the artifact path.
2. It asks the service for a signed upload target. The request carries platform `android` and the file's base name.
3. It PUTs the file to the returned object-store URL. This uses a plain client, with the exact file size and a binary content type.
4. It registers the uploaded object as a new version of the integration.

Any transport error or any status other than 200 ends the process at once with a single diagnostic line.

The network, the file system and JSON decoding are abstract outcomes given to the model:

- a `World` holds the result of `stat`, the three HTTP outcomes and the local steps of the upload;
- a decoded body is a map of string fields, or `Malformed`.

`Pipeline.Run` plays `main`. It returns the final state (`Registered`, exit code 0, or `Failed(stage, fault)`, exit code 1) together with the trace of requests handed to a transport. Each trace entry records the verb, URL, header map and payload.

The modules:

- `Text`: suffix test, `%d` rendering with its inverse, and `filepath.Base` (Unix semantics).
- `Http`: header maps, `Header.Add`, the request object, and the decorating `transport` whose `RoundTrip` adds the configured headers in place.
- `Faults`: failure kinds, the diagnostic line, and a parser that reads a `RequestErr` message back.
- `Validation`: `FileExists` and `ValidateAppPath`.
- `Pipeline`: constants, the three remote stages and `Run`.

Three points of the code are worth stating, and the model keeps them as written:

- The platform is always the constant `"android"`. No `.zip`/iOS variant exists.
- There is no branch-specific endpoint.
- The extension is checked before existence. The order is visible: a path with a wrong extension is reported as such even when it does not exist.

## Model

| member | source | states |
|---|---|---|
| Validation.FileExists | main.go:148-155 | the file counts as absent only when stat fails with a "does not exist" error; success or any other error (e.g. permission) counts as present |
| Validation.ValidateAppPath | main.go:137-146 | passes iff the path ends in the literal `.apk` or `.aab` and the file exists; a path without such a suffix fails with the invalid-extension fault, one with it fails with the doesn't-exist fault |
| Validation.ExtensionCheckedFirst | main.go:138-141 | without an accepted extension the verdict is the invalid-extension fault whatever stat reports |
| Validation.EmptyPathHasInvalidExtension | main.go:137-145 | the empty path is always rejected for its extension, never as missing |
| Validation.LengthTestNeverDecides | main.go:142 | whenever the length test is reached the path has at least 4 characters, so a doesn't-exist verdict always means stat said not-exist |
| Validation.OtherStatErrorsPass | main.go:149-154 | a stat failure other than not-exist lets a well-named path pass |
| Validation.OtherExtensionsRejected | main.go:138 | `.APK`, `.Aab`, `.zip` and `.apk.txt` are rejected (case-sensitive, suffix only); `build/app.aab` passes |
| Text.BaseIsLastElement | main.go:163 | the base name of a path not ending in '/' is its non-empty tail after the last '/', without any '/' |
| Text.BaseKeepsSuffix | main.go:163 | an extension (a suffix without '/') of the path is also a suffix of its base name |
| Pipeline.SignedNameOfValidPath | main.go:163-165 | the file name sent for a validated path is non-empty, has no directory part, is a suffix of the path and still ends in `.apk`/`.aab` |
| Text.NatToDecimal | main.go:71 | the `%d` numeral is non-empty, all digits, has no leading zero, and contains no comma or quote |
| Text.IntToDecimalRoundTrip | main.go:71 | every status printed with `%d` reads back as the same integer |
| Http.AddHeader | main.go:32 | `Header.Add` appends the value to the key's list and leaves every other key as it was |
| Http.Request.Add | main.go:93 | the request's header map becomes `AddHeader` of the old one; nothing else in the request changes |
| Http.WithHeadersSpec | main.go:30-33 | decorating a header map adds each configured key's value at the end of its list and leaves every other key untouched |
| Http.WithHeadersStep | main.go:31-33 | one more `Add` extends the decoration by one more configured key (the loop step) |
| Http.WithHeadersOrderIrrelevant | main.go:31 | decorations with disjoint sets of (already canonical) keys commute; `RoundTrip` itself is proved for every visiting order by its loop, which picks the next key arbitrarily |
| Http.Transport.RoundTrip | main.go:30-39 | after the loop the request's header map is the old map decorated with every configured header; only the header map changes; the request goes to the inner transport, or to the default one when there is none |
| Http.Field | main.go:75-77 | a decoded struct field is its JSON value when present; it keeps the zero value "" when the field is absent from a decodable body or when the body does not decode |
| Faults.RequestErr | main.go:68-73 | a non-200 response becomes an API error for that step and status; its message is "" when the body does not decode |
| Faults.RequestErrMessageRoundTrip | main.go:71 | the message `oversecured: Step '<step>' failed with code <status>, server message: <message>` yields step, status and message back for any quote-free step name |
| Faults.RequestErrDiagnostic | main.go:68-73 | the line printed for a failed step reads back as its step name, status and decoded server message |
| Faults.ApiDiagnosticInjective | main.go:71 | two API failures that print the same line are the same failure |
| Faults.StepNameInjective | main.go:100 | the step names `Signed URL`, `S3 Upload`, `Scan Version` are distinct |
| Text.HasSuffixSplits | main.go:138 | `strings.HasSuffix(s, suffix)` holds exactly when `s` is some head followed by `suffix` |
| Text.IntToDecimal | main.go:71 | the `%d` rendering is non-empty, starts with '-' exactly for a negative status, and holds no comma or quote |
| Text.Base | main.go:163 | `filepath.Base` is never empty, and for a non-empty path it holds no '/' unless it is the root "/" |
| Faults.StepName | main.go:100 | the step names `Signed URL`, `S3 Upload`, `Scan Version` (main.go:100, 115, 133) hold no quote, so they read back out of the message |
| Faults.RequestErrMessage | main.go:71 | the message opens with `oversecured: Step '<step>' failed with code ` and ends with `, server message: <message>` |
| Faults.Diagnostic | main.go:139-144 | the line printed by `log.Fatal` (main.go:72, 82-97, 139-144): a rejected path is quoted at the start and the end tells a bad extension from a missing file; a transport or local error is printed as it is; an API error opens with its step name |
| Pipeline.AddVersionUrl | main.go:19 | the registration URL is the fixed prefix `.../integrations/`, the integration id whole, then `/versions/add` |
| Pipeline.SignReqJson | main.go:104-109 | the sign body has exactly the fields `platform` and `file_name`, which decode back to the request's values |
| Pipeline.VersionUploadJson | main.go:122-127 | the registration body has exactly the fields `file_name` and `bucket_key`, which decode back to the request's values |
| Pipeline.DecodeSignResp | main.go:117-119 | a 200 sign body gives its `url` and `bucket_key`; a field missing from the body is "", and a body that does not decode gives two empty strings, not an error |
| Pipeline.ResponseFault | main.go:96-101 | a call ends the run exactly when it has a transport error (that error) or a status other than 200 (an API error for the step and status) |
| Pipeline.UploadFault | main.go:79-101 | the first failing local step in the order open, request building, stat is reported as a local error; when all three succeed the fault is that of the PUT under step `S3 Upload` (its transport error, or an API error for a status other than 200); no fault exactly when all local steps succeed and the PUT returns 200 |
| Pipeline.AuthorizedJsonHeader | main.go:41-47 | a JSON request sent through the configured client carries exactly `Content-Type: application/json` and `Authorization: <token>` |
| Pipeline.Post | main.go:110 | a POST through the decorating client is handed over with the JSON content type plus every configured header |
| Pipeline.GetUploadInfo | main.go:104-120 | the sign request is a POST to `/upload/app` with platform `android` and the given name; the result is the decoded target iff the answer is a 200, else the response's fault |
| Pipeline.UploadFile | main.go:79-102 | a PUT is made iff open, request building and stat all succeed; it goes to the given URL with the file, its exact size and `application/octet-stream` as the only header (no authorization); the stage passes iff the PUT returns 200 |
| Pipeline.AddVersion | main.go:122-135 | the registration is a POST to `/integrations/<id>/versions/add` with the given file name and bucket key; it passes iff the answer is a 200 |
| Pipeline.ExitCode | main.go:169-170 | the exit code is 0 exactly for a registered version and 1 for any failure |
| Pipeline.Run | main.go:157-171 | stages run in the order validate, sign, upload, register. It reaches `Registered` iff every stage succeeds. The first failure is the one reported, and no call of a later stage follows it: no call at all after a validation failure, and no registration without a 200 from sign and PUT. A run failing at registration did make the registration call. The PUT gets the sign answer's `url` and the original path. The registration gets the same answer's `bucket_key` and the same base name, which are empty strings when the answer does not decode. Control-plane calls carry the token and the PUT does not |

## Left out

- Network traffic (`client.Post`, `s3Client.Do`, `http.DefaultTransport`) is an abstract outcome per call: a transport error, or a status and a decoded body. Response streaming and closing bodies are not modelled.
- A failing `http.NewRequest` inside `client.Post` (an unparsable URL built from the integration id) is not modelled separately. It counts as a transport error of that call, and the call still appears in the trace.
- `os.Open`, `http.NewRequest` for the PUT, and `File.Stat` in `UploadFile` are given outcomes. The file's bytes are represented by its path and size.
- JSON encoding and decoding are not modelled. A body is a map of its string fields or `Malformed`. Fields of another JSON type, and Go's case-insensitive field matching, are not modelled.
- Reading `app_path`, `access_token` and `integration_id` from the environment, and `strings.TrimSpace`, are left out. `Config` holds the values as read, with the path already trimmed.
- The `fmt.Println` progress lines, the timestamp prefix of `log.Fatal`, and the process exit itself are left out. `log.Fatal` is modelled as a stage returning its fault, after which `Run` stops. The printed line is `Faults.Diagnostic`, and the exit status is `Pipeline.ExitCode`.
- Http.Request.Add, Http.AddHeader, Http.Transport.RoundTrip: the header key is used as given, so keys that differ only in case stay apart, whereas Go would merge them into one key whose value order follows map iteration. Go's canonicalisation of header keys is not modelled. The only keys used, `Authorization` and `Content-Type`, are already canonical.
- Text.Base: models `filepath.Base` with '/' as the only separator and no volume names, i.e. Unix semantics.
- Concurrency does not arise: the step is single-threaded and runs once per process.
