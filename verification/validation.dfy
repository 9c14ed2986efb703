/**
 * The check run on the artifact path before anything is sent: the path
 * must end in ".apk" or ".aab", and it must exist. The file system enters
 * only through the outcome of one `stat` call.
 */
module Validation {
  import opened Text
  import opened Faults

  /** What `stat` reported for the path. */
  datatype StatResult =
    | StatOk
    | StatFailed(err: string, notExist: bool)   // `notExist`: the error is a "does not exist" error

  /** `FileExists`: only a "does not exist" error counts as absence. */
  function FileExists(st: StatResult): (exists_: bool)
    ensures !exists_ <==> st.StatFailed? && st.notExist
  {
    match st
    case StatFailed(_, notExist) => if notExist then false else true
    case StatOk => true
  }

  /** The two literal, case-sensitive extensions of an Android artifact. */
  predicate HasAppExtension(path: string) {
    HasSuffix(path, ".apk") || HasSuffix(path, ".aab")
  }

  datatype Verdict = Pass | Fail(fault: Fault)

  /**
   * `ValidateAppPath`: the extension is checked first, existence second.
   * The path passes exactly when it has an accepted extension and stat did
   * not report it missing; otherwise the first failed check names the fault.
   */
  function ValidateAppPath(path: string, st: StatResult): (v: Verdict)
    ensures v.Pass? <==> HasAppExtension(path) && FileExists(st)
    ensures v.Fail? && !HasAppExtension(path) ==> v.fault == InvalidExtension(path)
    ensures v.Fail? && HasAppExtension(path) ==> v.fault == NotFound(path)
  {
    if !HasSuffix(path, ".apk") && !HasSuffix(path, ".aab") then
      Fail(InvalidExtension(path))
    else if |path| == 0 || !FileExists(st) then
      Fail(NotFound(path))
    else
      Pass
  }

  /**
   * The extension check runs first: a path without an accepted extension
   * is rejected for its extension whatever stat would have said, so the
   * empty path is never reported as missing.
   */
  lemma ExtensionCheckedFirst(path: string, st: StatResult)
    requires !HasAppExtension(path)
    ensures ValidateAppPath(path, st) == Fail(InvalidExtension(path))
  {
  }

  lemma EmptyPathHasInvalidExtension(st: StatResult)
    ensures ValidateAppPath("", st) == Fail(InvalidExtension(""))
  {
  }

  /**
   * The length test never decides: whenever it is reached the path is at
   * least four characters long, so a "doesn't exist" verdict always means
   * stat reported the file missing.
   */
  lemma {:induction false} LengthTestNeverDecides(path: string, st: StatResult)
    ensures HasAppExtension(path) ==> |path| >= 4
    ensures ValidateAppPath(path, st) == Fail(NotFound(path)) ==> st.StatFailed? && st.notExist
  {
  }

  /** A permission error or any other stat failure is not absence. */
  lemma OtherStatErrorsPass(path: string, err: string)
    requires HasAppExtension(path)
    ensures ValidateAppPath(path, StatFailed(err, false)) == Pass
  {
  }

  /** Matching is on the literal lower-case suffixes. */
  lemma OtherExtensionsRejected(st: StatResult)
    ensures ValidateAppPath("app.APK", st) == Fail(InvalidExtension("app.APK"))
    ensures ValidateAppPath("app.Aab", st) == Fail(InvalidExtension("app.Aab"))
    ensures ValidateAppPath("app.zip", st) == Fail(InvalidExtension("app.zip"))
    ensures ValidateAppPath("app.apk.txt", st) == Fail(InvalidExtension("app.apk.txt"))
    ensures ValidateAppPath("build/app.aab", StatOk) == Pass
  {
    assert "app.APK"[3..] == ".APK";
    assert "app.Aab"[3..] == ".Aab";
    assert "app.zip"[3..] == ".zip";
    assert "app.apk.txt"[7..] == ".txt";
    assert "build/app.aab"[9..] == ".aab";
  }
}
