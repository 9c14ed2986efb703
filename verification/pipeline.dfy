/**
 * The upload step itself: validate the artifact path, ask the service for
 * a signed upload target, PUT the artifact to object storage, and register
 * the uploaded object as a new version. The first failure ends the run.
 * Each network call is an abstract outcome given in a `World`; the run
 * returns its final state and the trace of requests it handed over.
 */
module Pipeline {
  import opened Wrappers
  import opened Text
  import opened Http
  import opened Faults
  import opened Validation

  const BaseUrl := "https://api.oversecured.com/v1"
  const SignedLinkUrl := BaseUrl + "/upload/app"
  const Platform := "android"
  const ApiContentType := "application/json"
  const S3ContentType := "application/octet-stream"

  const IntegrationsPrefix := BaseUrl + "/integrations/"
  const VersionsAddSuffix := "/versions/add"

  /** The registration endpoint: the integration id stands whole between a fixed prefix and suffix. */
  function AddVersionUrl(integrationId: string): (url: string)
    ensures HasPrefix(url, IntegrationsPrefix) && HasSuffix(url, VersionsAddSuffix)
    ensures |url| == |IntegrationsPrefix| + |integrationId| + |VersionsAddSuffix|
    ensures url[|IntegrationsPrefix|..|url| - |VersionsAddSuffix|] == integrationId
  {
    ConcatAffixes(IntegrationsPrefix, integrationId + VersionsAddSuffix);
    ConcatAffixes(IntegrationsPrefix + integrationId, VersionsAddSuffix);
    var url := IntegrationsPrefix + integrationId + VersionsAddSuffix;
    assert url[|IntegrationsPrefix|..|url| - |VersionsAddSuffix|] == integrationId;
    url
  }

  /** The settings the step reads once at startup; the path already trimmed. */
  datatype Config = Config(appPath: string, accessToken: string, integrationId: string)

  datatype SignReq = SignReq(platform: string, fileName: string)
  datatype SignResp = SignResp(bucketKey: string, url: string)
  datatype VersionUpload = VersionUpload(fileName: string, bucketKey: string)

  /** The JSON objects sent to the service, under their wire names. */
  function SignReqJson(r: SignReq): (j: map<string, string>)
    ensures j.Keys == {"platform", "file_name"}
    ensures Field(Decoded(j), "platform") == r.platform && Field(Decoded(j), "file_name") == r.fileName
  {
    map["platform" := r.platform, "file_name" := r.fileName]
  }

  function VersionUploadJson(v: VersionUpload): (j: map<string, string>)
    ensures j.Keys == {"file_name", "bucket_key"}
    ensures Field(Decoded(j), "file_name") == v.fileName && Field(Decoded(j), "bucket_key") == v.bucketKey
  {
    map["file_name" := v.fileName, "bucket_key" := v.bucketKey]
  }

  /** Decoding a sign answer; a body that does not decode gives empty fields. */
  function DecodeSignResp(body: Body): (r: SignResp)
    ensures body.Malformed? ==> r == SignResp("", "")
    ensures body.Decoded? && "url" in body.fields ==> r.url == body.fields["url"]
    ensures body.Decoded? && "bucket_key" in body.fields ==> r.bucketKey == body.fields["bucket_key"]
    ensures body.Decoded? && "url" !in body.fields ==> r.url == ""
    ensures body.Decoded? && "bucket_key" !in body.fields ==> r.bucketKey == ""
  {
    SignResp(Field(body, "bucket_key"), Field(body, "url"))
  }

  datatype Stage = Validate | Sign | Upload | Register

  function Rank(s: Stage): nat {
    match s
    case Validate => 0
    case Sign => 1
    case Upload => 2
    case Register => 3
  }

  /** A request as it was handed to the transport. */
  datatype Call = Call(stage: Stage, verb: string, url: string, header: Header, payload: Payload)

  /** The header map of a JSON request before the transport decorates it. */
  const JsonHeader: Header := map["Content-Type" := [ApiContentType]]

  /** The header map of a JSON request sent through a client configured with `auth`. */
  function ApiHeader(token: string): Header {
    map["Content-Type" := [ApiContentType], "Authorization" := [token]]
  }

  /** Decorating a JSON request with the access token gives exactly `ApiHeader`. */
  lemma AuthorizedJsonHeader(token: string)
    ensures WithHeaders(JsonHeader, map["Authorization" := token]) == ApiHeader(token)
  {
    var auth := map["Authorization" := token];
    var g := WithHeaders(JsonHeader, auth);
    forall k
      ensures (k in g <==> k in ApiHeader(token)) && Values(g, k) == Values(ApiHeader(token), k)
    {
      ValuesWithHeaders(JsonHeader, auth, k);
    }
    SameValuesSameHeader(g, ApiHeader(token));
  }

  /** Local steps of the upload: opening the file, building the PUT. */
  datatype LocalStep = LocalOk | LocalFailed(err: string)

  /** Stat of the opened file: its size in bytes, or an error. */
  datatype FileInfo = Sized(size: int) | InfoFailed(err: string)

  /** Everything the upload stage meets, in the order it meets it. */
  datatype UploadIo = UploadIo(open: LocalStep, build: LocalStep, info: FileInfo, put: Outcome)

  /** The outcomes of every interaction with the outside world in one run. */
  datatype World = World(stat: StatResult, sign: Outcome, upload: UploadIo, register: Outcome)

  /** The end of a run: version registered (exit 0), or the first failure (exit 1). */
  datatype Final = Registered | Failed(at: Stage, fault: Fault)

  function ExitCode(f: Final): (code: int)
    ensures code == 0 || code == 1
    ensures code == 0 <==> f.Registered?
  {
    if f.Registered? then 0 else 1
  }

  /** A call ends the run on a transport error or on any status but 200. */
  function ResponseFault(step: Step, o: Outcome): (f: Option<Fault>)
    ensures f.None? <==> IsOk(o)
    ensures o.TransportFailure? ==> f == Some(TransportError(o.err))
    ensures o.Received? && o.status != 200 ==>
      f.Some? && f.value.ApiError? && f.value.step == step && f.value.status == o.status
  {
    match o
    case TransportFailure(err) => Some(TransportError(err))
    case Received(status, body) =>
      if status != 200 then Some(RequestErr(step, status, body)) else None
  }

  predicate LocalReady(io: UploadIo) {
    io.open.LocalOk? && io.build.LocalOk? && io.info.Sized?
  }

  /** The first fault the upload stage meets, if any. */
  function UploadFault(io: UploadIo): (f: Option<Fault>)
    ensures f.None? <==> LocalReady(io) && IsOk(io.put)
    ensures io.open.LocalFailed? ==> f == Some(LocalError(io.open.err))
    ensures io.open.LocalOk? && io.build.LocalFailed? ==> f == Some(LocalError(io.build.err))
    ensures io.open.LocalOk? && io.build.LocalOk? && io.info.InfoFailed? ==> f == Some(LocalError(io.info.err))
    ensures LocalReady(io) ==> f == ResponseFault(S3Upload, io.put)
  {
    if io.open.LocalFailed? then Some(LocalError(io.open.err))
    else if io.build.LocalFailed? then Some(LocalError(io.build.err))
    else if io.info.InfoFailed? then Some(LocalError(io.info.err))
    else ResponseFault(S3Upload, io.put)
  }

  datatype Result<T> = Ok(value: T) | Err(fault: Fault)

  /** `client.Post`: a JSON request passed through the decorating transport. */
  method Post(client: Transport, stage: Stage, url: string, fields: map<string, string>) returns (call: Call)
    ensures call == Call(stage, "POST", url, WithHeaders(JsonHeader, client.headers), Json(fields))
  {
    var req := new Request("POST", url, Json(fields));
    req.header := req.header["Content-Type" := [ApiContentType]];
    assert req.header == JsonHeader;
    var _ := client.RoundTrip(req);
    call := Call(stage, req.verb, req.url, req.header, req.payload);
  }

  /**
   * `GetUploadInfo`: asks for an upload target for `name` on the Android
   * platform. A 200 answer yields the decoded target (empty fields when the
   * body does not decode); anything else is the run's fault.
   */
  method GetUploadInfo(client: Transport, name: string, answer: Outcome) returns (r: Result<SignResp>, call: Call)
    ensures call == Call(Sign, "POST", SignedLinkUrl, WithHeaders(JsonHeader, client.headers),
                         Json(map["platform" := "android", "file_name" := name]))
    ensures r.Ok? <==> IsOk(answer)
    ensures r.Ok? ==> r.value == DecodeSignResp(answer.body)
    ensures r.Err? ==> Some(r.fault) == ResponseFault(SignedUrl, answer)
  {
    call := Post(client, Sign, SignedLinkUrl, SignReqJson(SignReq(Platform, name)));
    var fault := ResponseFault(SignedUrl, answer);
    if fault.Some? {
      return Err(fault.value), call;
    }
    r := Ok(DecodeSignResp(answer.body));
  }

  /**
   * `UploadFile`: opens the artifact, builds a PUT to `url` whose body is
   * the file with its exact size as content length and a binary content
   * type, and sends it with a plain client that adds no header of its own.
   * A local failure ends the stage before any request is made.
   */
  method UploadFile(url: string, path: string, io: UploadIo) returns (v: Verdict, call: Option<Call>)
    ensures call.Some? <==> LocalReady(io)
    ensures call.Some? ==> call.value == Call(Upload, "PUT", url, map["Content-Type" := [S3ContentType]],
                                              FileContent(path, io.info.size))
    ensures v.Pass? <==> UploadFault(io).None?
    ensures v.Fail? ==> Some(v.fault) == UploadFault(io)
  {
    if io.open.LocalFailed? {
      return Fail(LocalError(io.open.err)), None;
    }
    if io.build.LocalFailed? {
      return Fail(LocalError(io.build.err)), None;
    }
    if io.info.InfoFailed? {
      return Fail(LocalError(io.info.err)), None;
    }
    var req := new Request("PUT", url, FileContent(path, io.info.size));
    req.Add("Content-Type", S3ContentType);
    assert [] + [S3ContentType] == [S3ContentType];
    assert req.header == map["Content-Type" := [S3ContentType]];
    call := Some(Call(Upload, req.verb, req.url, req.header, req.payload));
    var fault := ResponseFault(S3Upload, io.put);
    v := if fault.Some? then Fail(fault.value) else Pass;
  }

  /** `AddVersion`: registers the uploaded object under `name`. */
  method AddVersion(client: Transport, integrationId: string, bucketKey: string, name: string, answer: Outcome)
    returns (v: Verdict, call: Call)
    ensures call == Call(Register, "POST", AddVersionUrl(integrationId), WithHeaders(JsonHeader, client.headers),
                         Json(map["file_name" := name, "bucket_key" := bucketKey]))
    ensures v.Pass? <==> IsOk(answer)
    ensures v.Fail? ==> Some(v.fault) == ResponseFault(ScanVersion, answer)
  {
    call := Post(client, Register, AddVersionUrl(integrationId), VersionUploadJson(VersionUpload(name, bucketKey)));
    var fault := ResponseFault(ScanVersion, answer);
    v := if fault.Some? then Fail(fault.value) else Pass;
  }

  /**
   * The file name sent for a validated artifact is its last path element:
   * never empty, never holding a directory, and still carrying the
   * artifact's extension.
   */
  lemma SignedNameOfValidPath(path: string)
    requires HasAppExtension(path)
    ensures var name := Base(path);
      name != [] && '/' !in name && HasSuffix(path, name) && HasAppExtension(name)
  {
    BaseIsLastElement(path);
    if HasSuffix(path, ".apk") {
      BaseKeepsSuffix(path, ".apk");
    } else {
      BaseKeepsSuffix(path, ".aab");
    }
  }

  /** Every stage succeeds. */
  predicate RunSucceeds(cfg: Config, w: World) {
    && ValidateAppPath(cfg.appPath, w.stat).Pass?
    && IsOk(w.sign)
    && LocalReady(w.upload) && IsOk(w.upload.put)
    && IsOk(w.register)
  }

  /**
   * `main`: validate, sign, upload, register, strictly in that order; the
   * first failure ends the run and no later stage runs. The upload gets the
   * URL of the sign answer and the original path; the registration gets the
   * bucket key of the same answer and the same base name. Control-plane
   * calls carry the access token; the object-store PUT does not.
   */
  method Run(cfg: Config, w: World) returns (final: Final, trace: seq<Call>)
    ensures final.Registered? <==> RunSucceeds(cfg, w)
    ensures ExitCode(final) == 0 ==> |trace| == 3 && IsOk(w.register)
    // a failing stage is reached only after every earlier one succeeded
    ensures final.Failed? && Rank(final.at) > 0 ==> ValidateAppPath(cfg.appPath, w.stat).Pass?
    ensures final.Failed? && Rank(final.at) > 1 ==> IsOk(w.sign)
    ensures final.Failed? && Rank(final.at) > 2 ==> LocalReady(w.upload) && IsOk(w.upload.put)
    // the first failure is the one reported
    ensures final.Failed? && final.at == Validate ==> ValidateAppPath(cfg.appPath, w.stat) == Fail(final.fault)
    ensures final.Failed? && final.at == Sign ==> Some(final.fault) == ResponseFault(SignedUrl, w.sign)
    ensures final.Failed? && final.at == Upload ==> Some(final.fault) == UploadFault(w.upload)
    ensures final.Failed? && final.at == Register ==> Some(final.fault) == ResponseFault(ScanVersion, w.register)
    // no call belongs to a stage after the failing one
    ensures final.Failed? ==> forall i :: 0 <= i < |trace| ==> Rank(trace[i].stage) <= Rank(final.at)
    ensures final.Failed? && final.at == Validate ==> trace == []
    ensures final.Failed? && final.at == Sign ==> |trace| == 1
    ensures final.Failed? && final.at == Upload ==> |trace| == if LocalReady(w.upload) then 2 else 1
    ensures final.Failed? && final.at == Register ==> |trace| == 3
    ensures |trace| == 3 ==> IsOk(w.sign) && IsOk(w.upload.put)
    // what each call carries
    ensures |trace| >= 1 ==> trace[0] == Call(Sign, "POST", SignedLinkUrl, ApiHeader(cfg.accessToken),
                                             Json(map["platform" := "android", "file_name" := Base(cfg.appPath)]))
    ensures |trace| >= 2 ==>
      w.sign.Received? && w.upload.info.Sized? &&
      trace[1] == Call(Upload, "PUT", DecodeSignResp(w.sign.body).url, map["Content-Type" := [S3ContentType]],
                          FileContent(cfg.appPath, w.upload.info.size))
    ensures |trace| == 3 ==>
      w.sign.Received? &&
      trace[2] == Call(Register, "POST", AddVersionUrl(cfg.integrationId), ApiHeader(cfg.accessToken),
                          Json(map["file_name" := Base(cfg.appPath), "bucket_key" := DecodeSignResp(w.sign.body).bucketKey]))
    ensures |trace| <= 3
    // a sign answer that does not decode hands on empty strings
    ensures |trace| >= 2 && w.sign.Received? && w.sign.body.Malformed? ==> trace[1].url == ""
    ensures |trace| == 3 && w.sign.Received? && w.sign.body.Malformed? ==> trace[2].payload.fields["bucket_key"] == ""
    ensures |trace| >= 2 ==> "Authorization" !in trace[1].header
  {
    var client := new Transport(map["Authorization" := cfg.accessToken], None);
    AuthorizedJsonHeader(cfg.accessToken);
    var path := cfg.appPath;
    var verdict := ValidateAppPath(path, w.stat);
    if verdict.Fail? {
      return Failed(Validate, verdict.fault), [];
    }
    var name := Base(path);
    var signed, signCall := GetUploadInfo(client, name, w.sign);
    trace := [signCall];
    if signed.Err? {
      return Failed(Sign, signed.fault), trace;
    }
    var target := signed.value;
    var uploaded, putCall := UploadFile(target.url, path, w.upload);
    if putCall.Some? {
      trace := trace + [putCall.value];
    }
    if uploaded.Fail? {
      return Failed(Upload, uploaded.fault), trace;
    }
    var registered, registerCall := AddVersion(client, cfg.integrationId, target.bucketKey, name, w.register);
    trace := trace + [registerCall];
    if registered.Fail? {
      return Failed(Register, registered.fault), trace;
    }
    final := Registered;
  }

  // ---------------------------------------------------------------------
  // Three runs whose outcome follows from the contract of `Run` alone.

  method RunWithAllAccepted() {
    var cfg := Config("app.apk", "token", "42");
    var signed := Decoded(map["bucket_key" := "b1", "url" := "https://store/b1"]);
    var w := World(StatOk, Received(200, signed), UploadIo(LocalOk, LocalOk, Sized(10), Received(200, Malformed)),
                   Received(200, Malformed));
    assert "app.apk"[3..] == ".apk";
    assert RunSucceeds(cfg, w);
    assert DecodeSignResp(signed) == SignResp("b1", "https://store/b1");
    var final, trace := Run(cfg, w);
    assert final == Registered && ExitCode(final) == 0;
    assert trace[1].url == "https://store/b1";
    assert trace[2].payload.fields["bucket_key"] == "b1";
  }

  method RunWithWrongExtension() {
    var cfg := Config("app.txt", "token", "42");
    var w := World(StatOk, Received(200, Malformed), UploadIo(LocalOk, LocalOk, Sized(10), Received(200, Malformed)),
                   Received(200, Malformed));
    assert "app.txt"[3..] == ".txt";
    var final, trace := Run(cfg, w);
    assert final == Failed(Validate, InvalidExtension("app.txt")) && trace == [];
    assert ExitCode(final) == 1;
  }

  method RunWithSignRefused() {
    var cfg := Config("app.aab", "token", "42");
    var refused := Decoded(map["message" := "quota exceeded"]);
    var w := World(StatOk, Received(403, refused), UploadIo(LocalOk, LocalOk, Sized(10), Received(200, Malformed)),
                   Received(200, Malformed));
    assert "app.aab"[3..] == ".aab";
    assert ValidateAppPath(cfg.appPath, w.stat) == Pass;
    assert ResponseFault(SignedUrl, w.sign) == Some(ApiError(SignedUrl, 403, "quota exceeded"));
    var final, trace := Run(cfg, w);
    assert final == Failed(Sign, ApiError(SignedUrl, 403, "quota exceeded"));
    assert |trace| == 1 && trace[0].stage == Sign;
  }
}
