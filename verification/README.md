# Illustrator scripting bridge — a Dafny model

`src/illustrator/server.py` exposes two MCP tools. `view` takes a screenshot
of the Adobe Illustrator window. `run` executes caller-supplied ExtendScript
inside Illustrator. This project models the bridge's decision and
text-building logic and proves properties of it:

- the harness wrapped around the caller's code: a log accumulator, a `log`
  function, a best-effort `userInteractionLevel` line, the code itself and a
  `join` trailer;
- the AppleScript control script that runs the harnessed `.jsx` file and turns
  a host-side failure into `"ERROR: " & errMsg`;
- the classification of `osascript`'s output into an error or a success result;
- the routing of `handleCallTool`;
- the life of the temporary files in `captureIllustrator` and
  `runIllustratorScript`.

Modules, one per concern of the file:

- `Wrappers`: `Option`, and `Outcome` for a Python call that returns a value or raises.
- `PyStr`: Python's `strip`, `startswith` and `replace(old, "")` on `seq<char>`.
  `strip` uses Python's exact `isspace` character set.
- `Templates`: the harness and the control script. Both come with inverse
  functions and round-trip lemmas.
- `Results`: MCP content items, `CompletedProcess` and the run-output mapper.
- `Server`: the rest.
  - `Machine` is a class for the machine the server runs on. It holds the
    temporary files that exist, a creation counter for fresh names, and a log
    of the `osascript` calls attempted. A call is logged just before
    `subprocess.run` is made, so the log also holds calls that then raised.
  - `Env` holds the oracles for everything outside the bridge: temp-file
    creation and writing, the two `osascript` calls, and the image re-encoding.
  - The methods `CaptureIllustrator`, `RunIllustratorScript` and
    `HandleCallTool` are each proved against a specification function:
    `CaptureResult`, `RunResult` or `RouteCall`.

Every generated text is a function of its input alone. The harness depends
only on `code`. The control script depends only on the path. No clock,
counter or randomness enters either.

The join trailer is the literal text the f-string produces. Between the quotes
of `join("…")` stand a backslash and a line feed. It is not the two-character
escape `\n`.

Three behaviours of `server.py` shape the model:

- The run result is decided by stripped stdout alone. The process is started
  without `check`, and its return code and stderr are never consulted. A run
  that exits non-zero with ordinary output is reported as a success.
- The `.jsx` file is deleted only on the normal path, by a straight-line
  `os.unlink`. An exception raised after the file exists leaves it behind.
  Examples are a failed write and `osascript` failing to start. Only
  `captureIllustrator` deletes its file in `finally`.
- `run` accepts any string `code`, including the empty string. The only
  rejection is a missing key, or no arguments at all.

## Model

| member | source | states |
|---|---|---|
| `PyStr.IsSpaceOnAscii` | src/illustrator/server.py:159 | `str.isspace()`, which `strip()` uses: the six ASCII whitespace characters are whitespace, and no visible ASCII character is |
| `PyStr.StartsWith` | src/illustrator/server.py:164 | `str.startswith(prefix)` holds exactly when the text is the prefix followed by some rest |
| `PyStr.LStrip` | src/illustrator/server.py:159 | the result is the suffix of the input left after a run of whitespace, and it does not start with whitespace |
| `PyStr.RStrip` | src/illustrator/server.py:159 | the result is the prefix of the input left before a run of whitespace, and it does not end with whitespace |
| `PyStr.Strip` | src/illustrator/server.py:159 | `str.strip()`: the result neither starts nor ends with whitespace and is never longer than the input |
| `PyStr.StripCharacterization` | src/illustrator/server.py:169 | whitespace + stripped text + whitespace always strips to exactly that text, so `strip` returns the unique core |
| `PyStr.StripIdempotent` | src/illustrator/server.py:169 | stripping the already stripped output again changes nothing |
| `PyStr.RemoveAll` | src/illustrator/server.py:169 | `replace('ERROR:', '')` as one left-to-right pass: the result is never longer than the input; `RemoveAllNoOccurrence` and `RemoveAllFirstOccurrence` pin down that every occurrence is deleted and nothing else |
| `PyStr.RemoveAllNoOccurrence` | src/illustrator/server.py:169 | `replace` leaves text without the sentinel unchanged |
| `PyStr.RemoveAllFirstOccurrence` | src/illustrator/server.py:169 | `replace` deletes the first occurrence wherever it stands: with no earlier match, `a + pat + b` becomes `a` followed by `b` with its own occurrences deleted |
| `Templates.Harness` | src/illustrator/server.py:124-137 | the harness is the fixed prelude, then `code` unmodified at a fixed offset, then the fixed join trailer; its length is the code's plus a constant |
| `Templates.HarnessRoundTrip` | src/illustrator/server.py:124-137 | extracting the code from the harness of `code` gives back `code` |
| `Templates.HarnessedCodeSound` | src/illustrator/server.py:124-137 | any text from which code can be extracted is exactly the harness of that code |
| `Templates.HarnessInjective` | src/illustrator/server.py:124-137 | different code never yields the same harness text |
| `Templates.ControlScript` | src/illustrator/server.py:144-154 | the control script contains `do javascript file "<path>"` with the path verbatim and the `on error errMsg` branch returning `"ERROR: " & errMsg`; the path can be recovered from it |
| `Templates.EmbeddedPathSound` | src/illustrator/server.py:144-154 | any text from which a path can be recovered is exactly the control script for that path |
| `Templates.CatchReturn` | src/illustrator/server.py:150-151 | the error branch's value starts with the sentinel `ERROR:` and holds the host message from offset 7 on |
| `Results.ErrorResult` | src/illustrator/server.py:183-187 | the result of an `except` clause (the same text as lines 112-116): an error with one text item, `Error: ` followed by the message, which can be read back from offset 7 |
| `Results.MapRunOutput` | src/illustrator/server.py:159-181 | one text item; an error exactly when stripped stdout starts with `ERROR:`; an error text is `Error: ` followed by stripped text, shorter than the output minus the sentinel; a success text is the banner followed by stripped stdout |
| `Results.ClassificationIgnoresStatus` | src/illustrator/server.py:156-164 | a run gets the same result as one whose stdout was stripped beforehand, with any other return code and stderr |
| `Results.HostErrorMessage` | src/illustrator/server.py:150-173 | the error branch's output for a host message `m` without `ERROR:`, followed by any whitespace, gives an error result with text `Error: ` + strip(m) |
| `Results.InnerSentinelDeleted` | src/illustrator/server.py:164-173 | a host message `m1 + "ERROR:" + m2` with no other sentinel, printed by the error branch with any trailing whitespace, is reported as `Error: ` + strip(m1 + m2): the inner sentinel is deleted too |
| `Server.Machine.CreateTemp` | src/illustrator/server.py:140-141 | either raises and changes nothing, or adds one empty file whose name no earlier file had |
| `Server.Machine.Write` | src/illustrator/server.py:142 | either sets the file's text or raises and leaves it as it was |
| `Server.Machine.Unlink` | src/illustrator/server.py:162 | removes exactly that file |
| `Server.Machine.RecordCall` | src/illustrator/server.py:156-158 | appends one attempted `osascript` call to the log and changes nothing else |
| `Server.CaptureResult` | src/illustrator/server.py:95-116 | one content item; a success exactly when the temp file, the capture process and the re-encoding all succeed, and then it is one `image/jpeg` item carrying the encoded data; otherwise it is the error result for the message of the first step that raised: temp-file creation, then the capture process, then the re-encoding |
| `Server.RunResult` | src/illustrator/server.py:122-187 | one text item; a success exactly when nothing raises and stripped stdout does not start with `ERROR:`, and then the text is the banner + stripped stdout; every leaking path is an error; a raising step gives the error result for its own message, checked in order: temp-file creation, the write, the `osascript` call; a completed call gives exactly `MapRunOutput` of its output |
| `Server.CaptureIllustrator` | src/illustrator/server.py:53-119 | returns `CaptureResult` for the path of the file it created, and the set of temporary files is the same as before on every path |
| `Server.RunIllustratorScript` | src/illustrator/server.py:122-187 | returns `RunResult` for its fresh `.jsx` path; records one `osascript` call, with the control script for that path, while the file holds the harness of `code`; the file remains afterwards exactly on the paths that raise after creating it |
| `Server.ScriptLeftBehindExactly` | src/illustrator/server.py:156-162 | after `run`, its `.jsx` file exists if and only if creation succeeded and then the write or the process raised |
| `Server.RouteCall` | src/illustrator/server.py:194-207 | `view` captures; `run` runs exactly when the arguments hold a `code` key, with that value, including the empty string; a `run` without one gets the fixed required-parameter text; any other name gets `Error: Unknown tool '<name>'` |
| `Server.HandleCallTool` | src/illustrator/server.py:190-207 | returns only the routed result's content, so `isError` is dropped; a reply given without routing creates no file and makes no `osascript` call |
| `Server.UnknownToolNamed` | src/illustrator/server.py:206-207 | the reply to an unknown tool contains the name in quotes, whatever arguments came with it |
| `Server.LoggedOutputReported` | src/illustrator/server.py:175-181 | logged output that is stripped and does not start with `ERROR:`, printed with trailing whitespace, comes back verbatim after `Script executed successfully\nOutput: `, whatever the return code |

## Left out

- The MCP server lifecycle (`handle_list_tools`, `main`, the async stdio loop): protocol plumbing. `handleCallTool` is modelled as a synchronous method.
- What `osascript` and Illustrator do: activation, `delay 1`, window position and size, `screencapture`, and running the `.jsx` file. These are oracles in `Env`. The text of the capture AppleScript (lines 59-91) is not generated.
- Image handling (`Image.open`, RGBA/LA to RGB, JPEG at quality 85, base64): a foreign library. It is the single oracle `Env.encodeJpeg`.
- The ExtendScript meaning of the harness. What `log`, `push` and `join` do inside Illustrator is not modelled. Neither is what a backslash followed by a line feed means inside a string literal, nor whether `userInteractionLevel` takes effect. Only the generated text is modelled.
- `Server.PathOf`: real temporary-file names are random names in the system's temporary directory. The model names the n-th file `/tmp/tmp<n><suffix>`. The model tracks which file is which by a creation counter, not by the name.
- `Server.CaptureResult`: for a non-zero exit of the capture process, the text of `CalledProcessError` is not built. The oracle supplies `str(e)` for every way the process fails.
- `Server.Machine.Write`: a failed write leaves the file's text as it was (empty). A partial write is not modelled. An encoding error of `encode("utf-8")` counts as a failed write.
- `Server.RouteCall`: argument values are strings. A non-string JSON value under `code` is not modelled.
- `Server.Machine.Unlink`: it is only ever applied to a file that exists, so the `os.unlink` exception path cannot arise in the model.
- The usage rule in `RUN_DESCRIPTION` (do not call `alert()` or `$.writeln()`) is a caller obligation that nothing enforces. It is not modelled.
