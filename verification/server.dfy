/**
 * The two tool operations and the dispatcher. The machine the server runs
 * on is an object: its temporary files and the `osascript` calls made on
 * it. Everything the bridge cannot see — whether a temporary file can be
 * created or written, what `osascript` prints or raises, and whether the
 * screenshot decodes — is given by an `Env` of oracles.
 */
module Server {
  import opened Wrappers
  import opened PyStr
  import opened Templates
  import opened Results

  /** A temporary file: the `id`-th one created, with its suffix (`.jsx` or `.png`). */
  datatype TempFile = TempFile(id: nat, suffix: string)

  function Digit(d: nat): char
    requires d < 10
  {
    "0123456789"[d]
  }

  function Decimal(n: nat): string {
    if n < 10 then [Digit(n)] else Decimal(n / 10) + [Digit(n % 10)]
  }

  /** The file's name in the temporary directory. */
  function PathOf(f: TempFile): string {
    "/tmp/tmp" + Decimal(f.id) + f.suffix
  }

  /**
   * A `subprocess.run` call of `osascript`, recorded whether or not it then
   * raised: for `run`, its control script and the text of the `.jsx` file it
   * names; for `view`, the screenshot path.
   */
  datatype OsascriptCall = RunCall(script: string, jsx: string) | CaptureCall(imagePath: string)

  /** Everything outside the bridge, as the outcome of each call the bridge makes. */
  datatype Env = Env(
    tempFails: Option<string>,                                    // NamedTemporaryFile raises str(e)
    writeFails: Option<string>,                                   // writing the .jsx bytes raises str(e)
    runOsascript: (string, string) -> Outcome<CompletedProcess>,  // control script, .jsx text
    captureOsascript: string -> Outcome<()>,                      // screenshot path; check=True
    encodeJpeg: Outcome<string>                                   // open, RGB, JPEG q85, base64
  )

  const JpegMime: string := "image/jpeg"
  const MissingCode: string := "Error: The 'code' parameter is required"

  function UnknownTool(name: string): string {
    "Error: Unknown tool '" + name + "'"
  }

  class Machine {
    /** The temporary files that exist, with their text. */
    var files: map<TempFile, string>
    /** How many temporary files have been created; a name is never handed out twice. */
    var created: nat
    /** Every `osascript` call attempted, oldest first. */
    var calls: seq<OsascriptCall>

    ghost predicate Valid()
      reads this
    {
      forall f :: f in files ==> f.id < created
    }

    constructor ()
      ensures Valid() && files == map[] && created == 0 && calls == []
    {
      files, created, calls := map[], 0, [];
    }

    /** `os.path.exists(path)` for a temporary file. */
    predicate Exists(f: TempFile)
      reads this
    {
      f in files
    }

    /**
     * `tempfile.NamedTemporaryFile(suffix=suffix, delete=False)`, closed at
     * once: an empty file under a name no earlier file had, or `fault` raised.
     */
    method CreateTemp(suffix: string, fault: Option<string>) returns (r: Outcome<TempFile>)
      requires Valid()
      modifies this
      ensures Valid() && calls == old(calls)
      ensures fault.Some? ==> r == Raises(fault.value) && files == old(files) && created == old(created)
      ensures fault.None? ==> r == Returns(TempFile(old(created), suffix)) && r.value !in old(files)
                              && files == old(files)[r.value := ""] && created == old(created) + 1
    {
      if fault.Some? {
        r := Raises(fault.value);
      } else {
        var f := TempFile(created, suffix);
        files := files[f := ""];
        created := created + 1;
        r := Returns(f);
      }
    }

    /** Writes `text` to the live file `f`, or raises `fault` and leaves it as it was. */
    method Write(f: TempFile, text: string, fault: Option<string>) returns (err: Option<string>)
      requires Valid() && f in files
      modifies this
      ensures Valid() && created == old(created) && calls == old(calls)
      ensures err == fault
      ensures files == if fault.None? then old(files)[f := text] else old(files)
    {
      err := fault;
      if fault.None? {
        files := files[f := text];
      }
    }

    /** `os.unlink(path)` on a live file. */
    method Unlink(f: TempFile)
      requires Valid() && f in files
      modifies this
      ensures Valid() && created == old(created) && calls == old(calls)
      ensures files == old(files) - {f}
    {
      files := files - {f};
    }

    /** Records an `osascript` call, made just before its outcome is known. */
    method RecordCall(c: OsascriptCall)
      requires Valid()
      modifies this
      ensures Valid() && files == old(files) && created == old(created)
      ensures calls == old(calls) + [c]
    {
      calls := calls + [c];
    }
  }

  /** The `.jsx` file the next `run` creates on a machine that has created `created` files. */
  function ScriptFile(created: nat): TempFile { TempFile(created, ".jsx") }

  /** The `.png` file the next `view` creates on a machine that has created `created` files. */
  function ShotFile(created: nat): TempFile { TempFile(created, ".png") }

  /** What `captureIllustrator` returns when its screenshot path is `path`. */
  function CaptureResult(env: Env, path: string): (r: CallToolResult)
    ensures |r.content| == 1
    ensures r.isError <==> r.content[0].TextContent?
    ensures r.isError ==> StartsWith(r.content[0].text, "Error: ")
    ensures !r.isError <==> env.tempFails.None? && env.captureOsascript(path).Returns? && env.encodeJpeg.Returns?
    ensures !r.isError ==> r.content[0] == ImageContent(JpegMime, env.encodeJpeg.value)
    ensures env.tempFails.Some? ==> r == ErrorResult(env.tempFails.value)
    ensures env.tempFails.None? && env.captureOsascript(path).Raises?
            ==> r == ErrorResult(env.captureOsascript(path).message)
    ensures env.tempFails.None? && env.captureOsascript(path).Returns? && env.encodeJpeg.Raises?
            ==> r == ErrorResult(env.encodeJpeg.message)
  {
    if env.tempFails.Some? then ErrorResult(env.tempFails.value)
    else match env.captureOsascript(path)
      case Raises(e) => ErrorResult(e)
      case Returns(_) =>
        match env.encodeJpeg
        case Raises(e) => ErrorResult(e)
        case Returns(data) => CallToolResult([ImageContent(JpegMime, data)], false)
  }

  /** What `osascript` does when `run` hands it the control script for `path`, which holds the harness of `code`. */
  function RunProcess(env: Env, code: string, path: string): Outcome<CompletedProcess> {
    env.runOsascript(ControlScript(path), Harness(code))
  }

  /** The `run` paths that raise after the `.jsx` file exists and so skip its `unlink`. */
  predicate RunLeaves(env: Env, code: string, path: string) {
    env.tempFails.None? && (env.writeFails.Some? || RunProcess(env, code, path).Raises?)
  }

  /** What `runIllustratorScript(code)` returns when its script path is `path`. */
  function RunResult(env: Env, code: string, path: string): (r: CallToolResult)
    ensures |r.content| == 1 && r.content[0].TextContent?
    ensures !r.isError <==> env.tempFails.None? && env.writeFails.None? && RunProcess(env, code, path).Returns?
                            && !StartsWith(Strip(RunProcess(env, code, path).value.stdout), Sentinel)
    ensures !r.isError ==> r.content[0].text == SuccessBanner + Strip(RunProcess(env, code, path).value.stdout)
    ensures r.isError ==> StartsWith(r.content[0].text, "Error: ")
    ensures RunLeaves(env, code, path) ==> r.isError
    ensures env.tempFails.Some? ==> r == ErrorResult(env.tempFails.value)
    ensures env.tempFails.None? && env.writeFails.Some? ==> r == ErrorResult(env.writeFails.value)
    ensures env.tempFails.None? && env.writeFails.None? && RunProcess(env, code, path).Raises?
            ==> r == ErrorResult(RunProcess(env, code, path).message)
    ensures env.tempFails.None? && env.writeFails.None? && RunProcess(env, code, path).Returns?
            ==> r == MapRunOutput(RunProcess(env, code, path).value)
  {
    if env.tempFails.Some? then ErrorResult(env.tempFails.value)
    else if env.writeFails.Some? then ErrorResult(env.writeFails.value)
    else match RunProcess(env, code, path)
      case Raises(e) => ErrorResult(e)
      case Returns(p) => MapRunOutput(p)
  }

  /** The temporary files after `run`: the `.jsx` file remains exactly on the paths `RunLeaves` names. */
  function FilesAfterRun(before: map<TempFile, string>, env: Env, code: string, created: nat): map<TempFile, string> {
    var f := ScriptFile(created);
    if !RunLeaves(env, code, PathOf(f)) then before
    else before[f := if env.writeFails.Some? then "" else Harness(code)]
  }

  /** The call log after `run`: one more entry exactly when the script was written. */
  function CallsAfterRun(before: seq<OsascriptCall>, env: Env, code: string, created: nat): seq<OsascriptCall> {
    if env.tempFails.None? && env.writeFails.None?
    then before + [RunCall(ControlScript(PathOf(ScriptFile(created))), Harness(code))]
    else before
  }

  /** The call log after `view`: one more entry exactly when the screenshot file was created. */
  function CallsAfterCapture(before: seq<OsascriptCall>, env: Env, created: nat): seq<OsascriptCall> {
    if env.tempFails.None? then before + [CaptureCall(PathOf(ShotFile(created)))] else before
  }

  /**
   * `captureIllustrator`: screenshot into a fresh `.png` file, re-encode it,
   * and delete the file in `finally` on every path.
   */
  method CaptureIllustrator(m: Machine, env: Env) returns (r: CallToolResult)
    requires m.Valid()
    modifies m
    ensures m.Valid()
    ensures r == CaptureResult(env, PathOf(ShotFile(old(m.created))))
    ensures m.files == old(m.files)
    ensures m.created == old(m.created) + (if env.tempFails.None? then 1 else 0)
    ensures m.calls == CallsAfterCapture(old(m.calls), env, old(m.created))
  {
    var screenshot: Option<TempFile> := None;
    var made := m.CreateTemp(".png", env.tempFails);
    if made.Raises? {
      r := ErrorResult(made.message);
    } else {
      screenshot := Some(made.value);
      var path := PathOf(made.value);
      m.RecordCall(CaptureCall(path));
      match env.captureOsascript(path)
      case Raises(e) =>
        r := ErrorResult(e);
      case Returns(_) =>
        match env.encodeJpeg
        case Raises(e) =>
          r := ErrorResult(e);
        case Returns(data) =>
          r := CallToolResult([ImageContent(JpegMime, data)], false);
    }
    // finally
    if screenshot.Some? && m.Exists(screenshot.value) {
      m.Unlink(screenshot.value);
      assert m.files == old(m.files);
    }
  }

  /**
   * `runIllustratorScript`: write the harness of `code` to a fresh `.jsx`
   * file, have `osascript` run it, delete the file, and classify the output.
   * Any exception becomes an error result; one raised after the file exists
   * leaves it behind, because the `unlink` is not in a `finally`.
   */
  method RunIllustratorScript(m: Machine, env: Env, code: string) returns (r: CallToolResult)
    requires m.Valid()
    modifies m
    ensures m.Valid()
    ensures r == RunResult(env, code, PathOf(ScriptFile(old(m.created))))
    ensures m.files == FilesAfterRun(old(m.files), env, code, old(m.created))
    ensures m.created == old(m.created) + (if env.tempFails.None? then 1 else 0)
    ensures m.calls == CallsAfterRun(old(m.calls), env, code, old(m.created))
  {
    var wrapped := Harness(code);
    var made := m.CreateTemp(".jsx", env.tempFails);
    if made.Raises? {
      return ErrorResult(made.message);
    }
    var f := made.value;
    var writeErr := m.Write(f, wrapped, env.writeFails);
    if writeErr.Some? {
      return ErrorResult(writeErr.value);
    }
    var script := ControlScript(PathOf(f));
    m.RecordCall(RunCall(script, m.files[f]));
    var proc := env.runOsascript(script, m.files[f]);
    if proc.Raises? {
      return ErrorResult(proc.message);
    }
    m.Unlink(f);
    assert m.files == old(m.files);
    r := MapRunOutput(proc.value);
  }

  /** Where `handleCallTool` sends a call. */
  datatype Route = ToCapture | ToRun(code: string) | Reply(text: string)

  /**
   * The routing rule of `handleCallTool`: `view` captures; `run` runs the
   * `code` argument, whatever string it is, and otherwise answers that it is
   * required; any other name is answered as unknown.
   */
  function RouteCall(name: string, arguments: Option<map<string, string>>): (r: Route)
    ensures r.ToCapture? <==> name == "view"
    ensures r.ToRun? <==> name == "run" && arguments.Some? && "code" in arguments.value
    ensures r.ToRun? ==> r.code == arguments.value["code"]
    ensures r.Reply? && name == "run" ==> r.text == MissingCode
    ensures r.Reply? && name != "run" ==> r.text == UnknownTool(name)
  {
    if name == "view" then ToCapture
    else if name == "run" then
      if arguments.None? || |arguments.value| == 0 || "code" !in arguments.value then Reply(MissingCode)
      else ToRun(arguments.value["code"])
    else Reply(UnknownTool(name))
  }

  /**
   * `handleCallTool`: routes the call and returns only the `content` of the
   * result, so the `isError` flag does not reach the caller. A call answered
   * without routing starts no process and creates no file.
   */
  method HandleCallTool(m: Machine, env: Env, name: string, arguments: Option<map<string, string>>)
    returns (content: seq<Content>)
    requires m.Valid()
    modifies m
    ensures m.Valid()
    ensures match RouteCall(name, arguments)
      case ToCapture =>
        content == CaptureResult(env, PathOf(ShotFile(old(m.created)))).content
        && m.files == old(m.files)
        && m.calls == CallsAfterCapture(old(m.calls), env, old(m.created))
      case ToRun(code) =>
        content == RunResult(env, code, PathOf(ScriptFile(old(m.created)))).content
        && m.files == FilesAfterRun(old(m.files), env, code, old(m.created))
        && m.calls == CallsAfterRun(old(m.calls), env, code, old(m.created))
      case Reply(text) =>
        content == [TextContent(text)] && unchanged(m)
  {
    match RouteCall(name, arguments)
    case ToCapture =>
      var result := CaptureIllustrator(m, env);
      content := result.content;
    case ToRun(code) =>
      var result := RunIllustratorScript(m, env, code);
      content := result.content;
    case Reply(text) =>
      content := [TextContent(text)];
  }

  /** The reply to an unknown tool quotes its name, whatever arguments came with it. */
  lemma UnknownToolNamed(name: string, arguments: Option<map<string, string>>)
    requires name != "view" && name != "run"
    ensures RouteCall(name, arguments).Reply? && Occurs("'" + name + "'", RouteCall(name, arguments).text)
  {
    assert UnknownTool(name) == "Error: Unknown tool " + ("'" + name + "'") + "";
    OccursInMiddle("Error: Unknown tool ", "'" + name + "'", "");
  }

  /**
   * The `run` output a caller's `log` calls produce, printed by `osascript`
   * with trailing whitespace, is reported verbatim after the success banner.
   */
  lemma LoggedOutputReported(out: string, trail: string, stderr: string, returncode: int)
    requires IsStripped(out) && !StartsWith(out, Sentinel) && AllSpace(trail)
    ensures MapRunOutput(CompletedProcess(out + trail, stderr, returncode))
            == CallToolResult([TextContent(SuccessBanner + out)], false)
  {
    assert [] + out + trail == out + trail;
    StripCharacterization([], out, trail);
  }

  /**
   * After `run`, its `.jsx` file still exists exactly when it was created
   * and then the write or the `osascript` call raised.
   */
  lemma ScriptLeftBehindExactly(before: map<TempFile, string>, env: Env, code: string, created: nat)
    requires forall f :: f in before ==> f.id < created
    ensures ScriptFile(created) in FilesAfterRun(before, env, code, created)
            <==> RunLeaves(env, code, PathOf(ScriptFile(created)))
  {
    assert ScriptFile(created) !in before;
  }
}
