/**
 * The two texts the bridge generates: the ExtendScript harness written to
 * the `.jsx` file, and the AppleScript control script handed to `osascript`.
 * Both are plain functions of their input: no clock, counter or randomness
 * enters them.
 */
module Templates {
  import opened Wrappers
  import opened PyStr

  /** Everything the harness puts before the caller's code. */
  const HarnessPrelude: string :=
    "\n"
    + "        var __alert_output = [];\n"
    + "        var log = function(message) {\n"
    + "            __alert_output.push(message);\n"
    + "        };\n"
    + "\n"
    + "        // TODO why doesn't this work?\n"
    + "        app.userInteractionLevel = UserInteractionLevel.DONTDISPLAYALERTS\n"
    + "\n"
    + "        "

  /**
   * Everything the harness puts after the caller's code. The argument of
   * `join` is the three characters the Python f-string yields for
   * `"\\\n"`: a backslash, a line feed, and nothing else between the quotes.
   */
  const HarnessTrailer: string :=
    "\n"
    + "\n"
    + "        // The last line becomes the return value to AppleScript\n"
    + "        __alert_output.join(\"\\\n\");\n"
    + "        "

  /** The text written to the temporary `.jsx` file for `code`. */
  function Harness(code: string): (h: string)
    ensures |h| == |HarnessPrelude| + |code| + |HarnessTrailer|
    ensures StartsWith(h, HarnessPrelude)
    ensures h[|HarnessPrelude|..|HarnessPrelude| + |code|] == code
    ensures h[|HarnessPrelude| + |code|..] == HarnessTrailer
  {
    HarnessPrelude + code + HarnessTrailer
  }

  /** Recovers the caller's code from a harness text, if it is one. */
  function HarnessedCode(h: string): (c: Option<string>)
    ensures c.Some? ==> |c.value| + |HarnessPrelude| + |HarnessTrailer| == |h|
  {
    if |h| >= |HarnessPrelude| + |HarnessTrailer|
       && h[..|HarnessPrelude|] == HarnessPrelude
       && h[|h| - |HarnessTrailer|..] == HarnessTrailer
    then Some(h[|HarnessPrelude|..|h| - |HarnessTrailer|])
    else None
  }

  /** The caller's code comes back out of its harness unchanged. */
  lemma HarnessRoundTrip(code: string)
    ensures HarnessedCode(Harness(code)) == Some(code)
  {
    var h := Harness(code);
    assert h[..|HarnessPrelude|] == HarnessPrelude;
    assert h[|h| - |HarnessTrailer|..] == HarnessTrailer;
  }

  /** Every text `HarnessedCode` accepts is the harness of what it returns. */
  lemma HarnessedCodeSound(h: string)
    requires HarnessedCode(h).Some?
    ensures Harness(HarnessedCode(h).value) == h
  {
    var p, t := |HarnessPrelude|, |HarnessTrailer|;
    assert h == h[..p] + h[p..|h| - t] + h[|h| - t..];
  }

  /** Different code never yields the same harness text. */
  lemma HarnessInjective(c1: string, c2: string)
    requires Harness(c1) == Harness(c2)
    ensures c1 == c2
  {
    HarnessRoundTrip(c1);
    HarnessRoundTrip(c2);
  }

  /** The control script up to the `do javascript` call. */
  const ControlHead: string :=
    "\n"
    + "            tell application \"Adobe Illustrator\"\n"
    + "                set user interaction level to never interact\n"
    + "                try\n"
    + "                    set result to "

  /** The command that makes Illustrator run the script file at `path`. */
  function JsCall(path: string): string {
    "do javascript file \"" + path + "\""
  }

  /** The lines between the call and the error branch. */
  const ReturnLine: string :=
    "\n"
    + "                    return result\n"
    + "                "

  /** The error branch: a host-side failure becomes a sentinel-prefixed string. */
  const CatchClause: string :=
    "on error errMsg\n"
    + "                    return \"ERROR: \" & errMsg"

  const ControlTail: string :=
    "\n"
    + "                end try\n"
    + "            end tell\n"
    + "        "

  /** The AppleScript handed to `osascript` for the script file at `path`. */
  function ControlScript(path: string): (s: string)
    ensures Occurs(JsCall(path), s)
    ensures Occurs(CatchClause, s)
    ensures EmbeddedPath(s) == Some(path)
  {
    var s := ControlHead + JsCall(path) + ReturnLine + CatchClause + ControlTail;
    assert s == ControlHead + JsCall(path) + (ReturnLine + CatchClause + ControlTail);
    OccursInMiddle(ControlHead, JsCall(path), ReturnLine + CatchClause + ControlTail);
    assert s == (ControlHead + JsCall(path) + ReturnLine) + CatchClause + ControlTail;
    OccursInMiddle(ControlHead + JsCall(path) + ReturnLine, CatchClause, ControlTail);
    EmbeddedPathOf(path);
    s
  }

  /** Everything before the path in a control script. */
  function PathPrefix(): string { ControlHead + "do javascript file \"" }

  /** Everything after the path in a control script. */
  function PathSuffix(): string { "\"" + ReturnLine + CatchClause + ControlTail }

  /** Recovers the script path from a control script, if it is one. */
  function EmbeddedPath(s: string): (p: Option<string>)
    ensures p.Some? ==> |p.value| + |PathPrefix()| + |PathSuffix()| == |s|
  {
    var pre, suf := PathPrefix(), PathSuffix();
    if |s| >= |pre| + |suf| && s[..|pre|] == pre && s[|s| - |suf|..] == suf
    then Some(s[|pre|..|s| - |suf|])
    else None
  }

  lemma EmbeddedPathOf(path: string)
    ensures EmbeddedPath(ControlHead + JsCall(path) + ReturnLine + CatchClause + ControlTail) == Some(path)
  {
    var s := ControlHead + JsCall(path) + ReturnLine + CatchClause + ControlTail;
    var pre, suf := PathPrefix(), PathSuffix();
    assert s == pre + path + suf by {
      Regroup(ControlHead, "do javascript file \"", path, "\"", ReturnLine, CatchClause, ControlTail);
    }
    SliceAround(pre, path, suf);
  }

  /** Moves the parentheses of a control script from around the call to around the path. */
  lemma Regroup(h: string, q: string, p: string, e: string, r: string, c: string, t: string)
    ensures h + (q + p + e) + r + c + t == (h + q) + p + (e + r + c + t)
  {
  }

  /** The three parts of `pre + x + suf` are recovered by slicing at the known lengths. */
  lemma SliceAround(pre: string, x: string, suf: string)
    ensures var s := pre + x + suf;
            s[..|pre|] == pre && s[|s| - |suf|..] == suf && s[|pre|..|s| - |suf|] == x
  {
  }

  /** Every text `EmbeddedPath` accepts is the control script of what it returns. */
  lemma EmbeddedPathSound(s: string)
    requires EmbeddedPath(s).Some?
    ensures ControlScript(EmbeddedPath(s).value) == s
  {
    var pre, suf := PathPrefix(), PathSuffix();
    var path := EmbeddedPath(s).value;
    assert s == s[..|pre|] + s[|pre|..|s| - |suf|] + s[|s| - |suf|..];
    assert ControlScript(path) == pre + path + suf;
  }

  /**
   * What the control script returns when `do javascript` fails with message
   * `errMsg`: its `on error` branch evaluates `"ERROR: " & errMsg`.
   */
  function CatchReturn(errMsg: string): (v: string)
    ensures StartsWith(v, "ERROR:")
    ensures |v| == 7 + |errMsg| && v[7..] == errMsg
  {
    "ERROR: " + errMsg
  }
}
