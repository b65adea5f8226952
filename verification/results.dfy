/**
 * The structured results the bridge returns (MCP `CallToolResult` with text
 * or image items) and the classification of a finished `osascript` run.
 */
module Results {
  import opened PyStr
  import opened Templates

  /** An MCP content item: `TextContent` or `ImageContent`. */
  datatype Content = TextContent(text: string) | ImageContent(mimeType: string, data: string)

  datatype CallToolResult = CallToolResult(content: seq<Content>, isError: bool)

  /** What `subprocess.run(..., capture_output=True, text=True)` returns. */
  datatype CompletedProcess = CompletedProcess(stdout: string, stderr: string, returncode: int)

  /** The marker the control script's error branch puts in front of the host's message. */
  const Sentinel: string := "ERROR:"

  const SuccessBanner: string := "Script executed successfully\nOutput: "

  /** The result every `except Exception as e` clause builds. */
  function ErrorResult(message: string): (r: CallToolResult)
    ensures r.isError && |r.content| == 1 && r.content[0].TextContent?
    ensures StartsWith(r.content[0].text, "Error: ") && r.content[0].text[7..] == message
  {
    CallToolResult([TextContent("Error: " + message)], true)
  }

  /**
   * Classifies a finished run by its stripped stdout alone: a leading
   * sentinel makes it an error whose text is the output with every sentinel
   * deleted and stripped again; anything else is a success that quotes the
   * output. Neither the return code nor stderr is looked at.
   */
  function MapRunOutput(p: CompletedProcess): (r: CallToolResult)
    ensures |r.content| == 1 && r.content[0].TextContent?
    ensures r.isError <==> StartsWith(Strip(p.stdout), Sentinel)
    ensures r.isError ==> StartsWith(r.content[0].text, "Error: ")
                          && IsStripped(r.content[0].text[7..])
                          && |r.content[0].text| <= 7 + |Strip(p.stdout)| - |Sentinel|
    ensures !r.isError ==> r.content[0].text == SuccessBanner + Strip(p.stdout)
  {
    var output := Strip(p.stdout);
    if StartsWith(output, Sentinel) then
      var rest := RemoveAll(Sentinel, output);
      assert |rest| <= |output| - |Sentinel| by { RemoveAllLeadingMatch(Sentinel, output); }
      ErrorResult(Strip(rest))
    else
      CallToolResult([TextContent(SuccessBanner + output)], false)
  }

  /** A leading occurrence is deleted before the rest is scanned. */
  lemma RemoveAllLeadingMatch(pat: string, s: string)
    requires pat != [] && StartsWith(s, pat)
    ensures RemoveAll(pat, s) == RemoveAll(pat, s[|pat|..])
  {
  }

  /**
   * A run is reported as if its stdout had been stripped beforehand, and
   * whatever its return code and stderr were.
   */
  lemma ClassificationIgnoresStatus(stdout: string, stderr: string, returncode: int, stderr': string, returncode': int)
    ensures MapRunOutput(CompletedProcess(stdout, stderr, returncode))
            == MapRunOutput(CompletedProcess(Strip(stdout), stderr', returncode'))
  {
    StripIdempotent(stdout);
  }

  /**
   * When the control script's error branch fires with a host message that
   * holds no sentinel, and `osascript` prints it followed by any whitespace,
   * the reported text is `Error: ` and the host message stripped.
   */
  lemma HostErrorMessage(errMsg: string, trail: string, stderr: string, returncode: int)
    requires !Occurs(Sentinel, errMsg) && AllSpace(trail)
    ensures MapRunOutput(CompletedProcess(CatchReturn(errMsg) + trail, stderr, returncode))
            == ErrorResult(Strip(errMsg))
  {
    var x := RStrip(" " + errMsg);
    var output := Sentinel + x;
    StrippedCatchReturn(errMsg, trail);
    assert output[|Sentinel|..] == x;
    RemoveAllLeadingMatch(Sentinel, output);
    NoSentinelAfterBlank(errMsg);
    NoOccurrenceInPrefix(Sentinel, " " + errMsg, |x|);
    assert (" " + errMsg)[..|x|] == x;
    RemoveAllNoOccurrence(Sentinel, x);
    StripOfSpacePrefixed(errMsg);
  }

  /**
   * Every sentinel is deleted, not only the leading one: a host message with
   * one more `ERROR:` inside is reported with that one removed as well.
   */
  lemma InnerSentinelDeleted(m1: string, m2: string, trail: string, stderr: string, returncode: int)
    requires !Occurs(Sentinel, m1 + Sentinel[..|Sentinel| - 1]) && !Occurs(Sentinel, m2) && AllSpace(trail)
    ensures MapRunOutput(CompletedProcess(CatchReturn(m1 + Sentinel + m2) + trail, stderr, returncode))
            == ErrorResult(Strip(m1 + m2))
  {
    var msg := m1 + Sentinel + m2;
    StrippedCatchReturn(msg, trail);
    InnerSentinelRStrip(m1, m2);
    InnerSentinelRemoval(m1, m2);
    assert StartsWith(Strip(CatchReturn(msg) + trail), Sentinel);
  }

  /** Right-stripping the blank-prefixed message trims only inside the part after the inner sentinel. */
  lemma InnerSentinelRStrip(m1: string, m2: string)
    ensures RStrip(" " + (m1 + Sentinel + m2)) == (" " + m1 + Sentinel) + RStrip(m2)
  {
    assert " " + (m1 + Sentinel + m2) == " " + m1 + Sentinel + m2;
    assert !IsSpace(Sentinel[|Sentinel| - 1]);
    RStripAfterSolid(" " + m1, Sentinel, m2);
  }

  /** Deleting the sentinels from that line and stripping leaves the two halves of the message, stripped. */
  lemma InnerSentinelRemoval(m1: string, m2: string)
    requires !Occurs(Sentinel, m1 + Sentinel[..|Sentinel| - 1]) && !Occurs(Sentinel, m2)
    ensures Strip(RemoveAll(Sentinel, Sentinel + ((" " + m1 + Sentinel) + RStrip(m2)))) == Strip(m1 + m2)
  {
    var a := " " + m1;
    BlankKeepsNoSentinel(m1);
    RStripKeepsNoSentinel(m2);
    assert RemoveAll(Sentinel, Sentinel + ((a + Sentinel) + RStrip(m2))) == a + RStrip(m2) by {
      RemoveAllTwoOccurrences(Sentinel, a, RStrip(m2));
    }
    assert AllSpace(" ");
    StripJoinedHalves(" ", m1, m2);
  }

  /** The blank after the leading sentinel cannot complete an inner one either. */
  lemma BlankKeepsNoSentinel(m1: string)
    requires !Occurs(Sentinel, m1 + Sentinel[..|Sentinel| - 1])
    ensures !Occurs(Sentinel, " " + m1 + Sentinel[..|Sentinel| - 1])
  {
    NoSentinelAfterBlank(m1 + Sentinel[..|Sentinel| - 1]);
    assert " " + (m1 + Sentinel[..|Sentinel| - 1]) == " " + m1 + Sentinel[..|Sentinel| - 1];
  }

  lemma RStripKeepsNoSentinel(m2: string)
    requires !Occurs(Sentinel, m2)
    ensures !Occurs(Sentinel, RStrip(m2))
  {
    NoOccurrenceInPrefix(Sentinel, m2, |RStrip(m2)|);
    assert m2[..|RStrip(m2)|] == RStrip(m2);
  }

  /** The line `osascript` prints for the error branch strips to the sentinel and the right-stripped message. */
  lemma StrippedCatchReturn(errMsg: string, trail: string)
    requires AllSpace(trail)
    ensures Strip(CatchReturn(errMsg) + trail) == Sentinel + RStrip(" " + errMsg)
  {
    assert CatchReturn(errMsg) + trail == Sentinel + (" " + errMsg) + trail;
    assert !IsSpace(Sentinel[0]) && !IsSpace(Sentinel[|Sentinel| - 1]);
    StripAfterSolidPrefix(Sentinel, " " + errMsg, trail);
  }

  /** The blank the error branch puts after the sentinel cannot start a sentinel. */
  lemma NoSentinelAfterBlank(m: string)
    requires !Occurs(Sentinel, m)
    ensures !Occurs(Sentinel, " " + m)
  {
    var body := " " + m;
    forall i | 0 <= i <= |body|
      ensures !MatchesAt(Sentinel, body, i)
    {
      if i == 0 {
        assert body[0] != Sentinel[0];
      } else if i + |Sentinel| <= |body| {
        assert body[i..i + |Sentinel|] == m[i - 1..i - 1 + |Sentinel|];
        assert !MatchesAt(Sentinel, m, i - 1);
      }
    }
  }
}
