/**
 * The ways a run can fail and the one diagnostic line each one prints
 * before the process exits, including the fixed-format message built for
 * a non-200 answer from the service or the object store.
 */
module Faults {
  import opened Wrappers
  import opened Text
  import opened Http

  /** The three remote steps named in a failure message. */
  datatype Step = SignedUrl | S3Upload | ScanVersion

  function StepName(step: Step): (name: string)
    ensures '\'' !in name
  {
    match step
    case SignedUrl => "Signed URL"
    case S3Upload => "S3 Upload"
    case ScanVersion => "Scan Version"
  }

  /** Different steps are reported under different names. */
  lemma StepNameInjective(a: Step, b: Step)
    ensures StepName(a) == StepName(b) ==> a == b
  {
  }

  datatype Fault =
    | InvalidExtension(path: string)       // the artifact is neither .apk nor .aab
    | NotFound(path: string)               // the artifact does not exist
    | TransportError(err: string)          // a call produced no response
    | LocalError(err: string)              // the artifact could not be opened or sized, or the PUT not built
    | ApiError(step: Step, status: int, message: string)  // a response other than 200

  /** A non-200 answer as a message reports it. */
  datatype RemoteFault = RemoteFault(step: string, status: int, message: string)

  const RequestErrPrefix := "oversecured: Step '"
  const CodeSeparator := "' failed with code "
  const MessageSeparator := ", server message: "

  /**
   * The message built for a failed step: it opens with the quoted step name
   * and ends with the server's message, with the status in between.
   */
  function RequestErrMessage(step: string, status: int, message: string): (r: string)
    ensures HasPrefix(r, RequestErrPrefix + step + CodeSeparator)
    ensures HasSuffix(r, MessageSeparator + message)
  {
    var head, d, tail := RequestErrPrefix + step + CodeSeparator, IntToDecimal(status), MessageSeparator + message;
    var r := RequestErrPrefix + (step + (CodeSeparator + (d + tail)));
    assert r == head + (d + tail) == (head + d) + tail;
    ConcatAffixes(head, d + tail);
    ConcatAffixes(head + d, tail);
    r
  }

  /**
   * `RequestErr`: a non-200 response becomes an API error carrying the
   * `message` field of its body, "" when the body does not decode.
   */
  function RequestErr(step: Step, status: int, body: Body): (f: Fault)
    ensures f.ApiError? && f.step == step && f.status == status
    ensures body.Malformed? ==> f.message == ""
  {
    ApiError(step, status, Field(body, "message"))
  }

  const InvalidExtensionTail := "' has invalid extension. Only '.apk' and '.aab' are allowed."
  const NotFoundTail := "' doesn't exist. Make sure you've added the 'Android Build' step to the Workflow."

  /**
   * The single line printed for `f` before the process exits with code 1.
   * A rejected path is quoted at the start of its line, and the end of the
   * line tells a bad extension from a missing file; an error from the
   * network or the file system is printed as it is.
   */
  function Diagnostic(f: Fault): (line: string)
    ensures f.InvalidExtension? ==>
      HasPrefix(line, "App file '" + f.path) && HasSuffix(line, InvalidExtensionTail)
    ensures f.NotFound? ==>
      HasPrefix(line, "App file '" + f.path) && HasSuffix(line, NotFoundTail)
    ensures f.TransportError? || f.LocalError? ==> line == f.err
    ensures f.ApiError? ==> HasPrefix(line, RequestErrPrefix + StepName(f.step) + CodeSeparator)
  {
    match f
    case InvalidExtension(path) =>
      ConcatAffixes("App file '" + path, InvalidExtensionTail);
      "App file '" + path + InvalidExtensionTail
    case NotFound(path) =>
      ConcatAffixes("App file '" + path, NotFoundTail);
      "App file '" + path + NotFoundTail
    case TransportError(err) => err
    case LocalError(err) => err
    case ApiError(step, status, message) => RequestErrMessage(StepName(step), status, message)
  }

  /** Reads a failed-step message back into its three parts. */
  function ParseRequestErr(s: string): Option<RemoteFault> {
    if !HasPrefix(s, RequestErrPrefix) then None
    else
      var r := s[|RequestErrPrefix|..];
      var q := IndexOf(r, '\'');
      var step, r2 := r[..q], r[q..];
      if !HasPrefix(r2, CodeSeparator) then None
      else
        var r3 := r2[|CodeSeparator|..];
        var c := IndexOf(r3, ',');
        var code, r4 := ParseInt(r3[..c]), r3[c..];
        if code.None? || !HasPrefix(r4, MessageSeparator) then None
        else Some(RemoteFault(step, code.value, r4[|MessageSeparator|..]))
  }

  /**
   * The message loses nothing: for a step name without a quote, every
   * status and every server message (commas and quotes included) are
   * recovered from the text.
   */
  lemma {:induction false} RequestErrMessageRoundTrip(step: string, status: int, message: string)
    requires '\'' !in step
    ensures ParseRequestErr(RequestErrMessage(step, status, message)) == Some(RemoteFault(step, status, message))
  {
    var d := IntToDecimal(status);
    var tail4 := MessageSeparator + message;
    var tail3 := d + tail4;
    var tail2 := CodeSeparator + tail3;
    var r := step + tail2;
    var s := RequestErrPrefix + r;
    assert s == RequestErrMessage(step, status, message);
    assert s[..|RequestErrPrefix|] == RequestErrPrefix;
    assert s[|RequestErrPrefix|..] == r;
    IndexOfAfter(step, tail2, '\'');
    assert r[..|step|] == step && r[|step|..] == tail2;
    assert tail2[..|CodeSeparator|] == CodeSeparator;
    assert tail2[|CodeSeparator|..] == tail3;
    IntToDecimalRoundTrip(status);
    IndexOfAfter(d, tail4, ',');
    assert tail3[..|d|] == d && tail3[|d|..] == tail4;
    assert tail4[..|MessageSeparator|] == MessageSeparator;
    assert tail4[|MessageSeparator|..] == message;
  }

  /**
   * The line printed for a non-200 answer names the step, the status and
   * the decoded server message, and nothing else; two different failures
   * never print the same line.
   */
  lemma RequestErrDiagnostic(step: Step, status: int, body: Body)
    ensures ParseRequestErr(Diagnostic(RequestErr(step, status, body)))
         == Some(RemoteFault(StepName(step), status, Field(body, "message")))
  {
    var f := RequestErr(step, status, body);
    assert Diagnostic(f) == RequestErrMessage(StepName(step), status, Field(body, "message"));
    RequestErrMessageRoundTrip(StepName(step), status, Field(body, "message"));
  }

  lemma ApiDiagnosticInjective(f: Fault, g: Fault)
    requires f.ApiError? && g.ApiError?
    requires Diagnostic(f) == Diagnostic(g)
    ensures f == g
  {
    RequestErrMessageRoundTrip(StepName(f.step), f.status, f.message);
    RequestErrMessageRoundTrip(StepName(g.step), g.status, g.message);
    StepNameInjective(f.step, g.step);
  }
}
