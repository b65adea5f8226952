/**
 * The parts of Python's `str` that the bridge relies on, over `seq<char>`:
 * `strip()`, `startswith()` and `replace(old, "")`.
 */
module PyStr {

  /** `c.isspace()`: the characters `str.strip()` removes when given no argument. */
  predicate IsSpace(c: char) {
    var n := c as int;
    (0x09 <= n <= 0x0D) || (0x1C <= n <= 0x20) || n == 0x85 || n == 0xA0 || n == 0x1680
    || (0x2000 <= n <= 0x200A) || n == 0x2028 || n == 0x2029 || n == 0x202F
    || n == 0x205F || n == 0x3000
  }

  /** The six ASCII whitespace characters are whitespace, and no visible ASCII character is. */
  lemma IsSpaceOnAscii(c: char)
    ensures c == ' ' || c == '\t' || c == '\n' || c == '\r' || c == '\U{0B}' || c == '\U{0C}' ==> IsSpace(c)
    ensures 0x21 <= c as int <= 0x7E ==> !IsSpace(c)
  {
  }

  predicate AllSpace(s: string) {
    forall i :: 0 <= i < |s| ==> IsSpace(s[i])
  }

  /** Neither end of `s` is whitespace. */
  predicate IsStripped(s: string) {
    s == [] || (!IsSpace(s[0]) && !IsSpace(s[|s| - 1]))
  }

  /** `s.lstrip()`: the suffix of `s` left after its leading whitespace. */
  function LStrip(s: string): (r: string)
    ensures |r| <= |s| && r == s[|s| - |r|..]
    ensures AllSpace(s[..|s| - |r|])
    ensures r == [] || !IsSpace(r[0])
  {
    if |s| > 0 && IsSpace(s[0]) then
      var r := LStrip(s[1..]);
      assert s[..|s| - |r|] == [s[0]] + s[1..][..|s[1..]| - |r|];
      r
    else s
  }

  /** `s.rstrip()`: the prefix of `s` left after its trailing whitespace. */
  function RStrip(s: string): (r: string)
    ensures |r| <= |s| && r == s[..|r|]
    ensures AllSpace(s[|r|..])
    ensures r == [] || !IsSpace(r[|r| - 1])
  {
    if |s| > 0 && IsSpace(s[|s| - 1]) then
      var r := RStrip(s[..|s| - 1]);
      assert s[|r|..] == s[..|s| - 1][|r|..] + [s[|s| - 1]];
      r
    else s
  }

  /** `s.strip()`: the infix of `s` between its leading and trailing whitespace. */
  function Strip(s: string): (r: string)
    ensures IsStripped(r)
    ensures |r| <= |s|
  {
    LStrip(RStrip(s))
  }

  /** `s.startswith(prefix)`: `s` is `prefix` followed by the rest. */
  predicate StartsWith(s: string, prefix: string): (b: bool)
    ensures b <==> |prefix| <= |s| && s == prefix + s[|prefix|..]
  {
    |prefix| <= |s| && s[..|prefix|] == prefix
  }

  predicate MatchesAt(pat: string, s: string, i: int) {
    0 <= i && i + |pat| <= |s| && s[i..i + |pat|] == pat
  }

  /** `pat in s`. */
  predicate Occurs(pat: string, s: string) {
    exists i :: 0 <= i <= |s| && MatchesAt(pat, s, i)
  }

  /**
   * `s.replace(pat, "")`: one left-to-right pass that deletes every
   * non-overlapping occurrence of `pat`.
   */
  function RemoveAll(pat: string, s: string): (r: string)
    requires pat != []
    ensures |r| <= |s|
    decreases |s|
  {
    if |s| < |pat| then s
    else if s[..|pat|] == pat then RemoveAll(pat, s[|pat|..])
    else [s[0]] + RemoveAll(pat, s[1..])
  }

  lemma {:induction false} RStripOfAllSpace(s: string)
    requires AllSpace(s)
    ensures RStrip(s) == []
    decreases |s|
  {
    if |s| > 0 {
      RStripOfAllSpace(s[..|s| - 1]);
    }
  }

  lemma {:induction false} LStripOfAllSpace(s: string)
    requires AllSpace(s)
    ensures LStrip(s) == []
    decreases |s|
  {
    if |s| > 0 {
      LStripOfAllSpace(s[1..]);
    }
  }

  /** Trailing whitespace of `a + b` is taken from `b` first, then, if `b` is all whitespace, from `a`. */
  lemma {:induction false} RStripConcat(a: string, b: string)
    ensures RStrip(a + b) == if RStrip(b) == [] then RStrip(a) else a + RStrip(b)
    decreases |b|
  {
    if b == [] {
      assert a + b == a;
    } else if IsSpace(b[|b| - 1]) {
      var b' := b[..|b| - 1];
      assert (a + b)[..|a + b| - 1] == a + b';
      RStripConcat(a, b');
    }
  }

  /** Leading whitespace of `a + b` is taken from `a` first, then, if `a` is all whitespace, from `b`. */
  lemma {:induction false} LStripConcat(a: string, b: string)
    ensures LStrip(a + b) == if LStrip(a) == [] then LStrip(b) else LStrip(a) + b
    decreases |a|
  {
    if a == [] {
      assert a + b == b;
    } else if IsSpace(a[0]) {
      assert (a + b)[1..] == a[1..] + b;
      LStripConcat(a[1..], b);
    }
  }

  /**
   * `strip()` is characterised by what it keeps: whatever stripped text is
   * surrounded by whitespace on both sides, that text is the result.
   */
  lemma StripCharacterization(a: string, m: string, b: string)
    requires AllSpace(a) && AllSpace(b) && IsStripped(m)
    ensures Strip(a + m + b) == m
  {
    RStripOfAllSpace(b);
    RStripConcat(a + m, b);
    LStripOfAllSpace(a);
    if m == [] {
      assert a + m == a;
      RStripOfAllSpace(a);
    } else {
      RStripConcat(a, m);
      LStripConcat(a, m);
    }
  }

  /** Stripping twice is stripping once. */
  lemma StripIdempotent(s: string)
    ensures Strip(Strip(s)) == Strip(s)
  {
    var r := Strip(s);
    assert [] + r + [] == r;
    StripCharacterization([], r, []);
  }

  /** A prefix of a string without occurrences of `pat` has none either. */
  lemma NoOccurrenceInPrefix(pat: string, s: string, k: nat)
    requires k <= |s| && !Occurs(pat, s)
    ensures !Occurs(pat, s[..k])
  {
    forall i | 0 <= i <= k
      ensures !MatchesAt(pat, s[..k], i)
    {
      if i + |pat| <= k {
        assert s[..k][i..i + |pat|] == s[i..i + |pat|];
        assert !MatchesAt(pat, s, i);
      }
    }
  }

  /** `replace` leaves a string without occurrences of `pat` as it is. */
  lemma {:induction false} RemoveAllNoOccurrence(pat: string, s: string)
    requires pat != [] && !Occurs(pat, s)
    ensures RemoveAll(pat, s) == s
    decreases |s|
  {
    if |s| >= |pat| {
      assert !MatchesAt(pat, s, 0);
      if Occurs(pat, s[1..]) {
        var i :| 0 <= i <= |s[1..]| && MatchesAt(pat, s[1..], i);
        assert s[1..][i..i + |pat|] == s[i + 1..i + 1 + |pat|];
        assert MatchesAt(pat, s, i + 1);
      }
      RemoveAllNoOccurrence(pat, s[1..]);
      assert [s[0]] + s[1..] == s;
    }
  }

  /** `m` occurs in `a + m + b`, at offset `|a|`. */
  lemma OccursInMiddle(a: string, m: string, b: string)
    ensures Occurs(m, a + m + b)
  {
    var s := a + m + b;
    assert s[|a|..|a| + |m|] == m;
    assert MatchesAt(m, s, |a|);
  }

  /**
   * Text that neither starts nor ends with whitespace shields what follows
   * it from `lstrip`: only the right end of the rest is trimmed.
   */
  lemma StripAfterSolidPrefix(a: string, b: string, trail: string)
    requires a != [] && !IsSpace(a[0]) && !IsSpace(a[|a| - 1]) && AllSpace(trail)
    ensures Strip(a + b + trail) == a + RStrip(b)
  {
    RStripOfAllSpace(trail);
    RStripConcat(a + b, trail);
    RStripConcat(a, b);
    assert RStrip(a) == a;
    LStripConcat(a, RStrip(b));
    assert LStrip(a) == a;
  }

  /**
   * `replace` deletes the first occurrence of `pat` wherever it sits: the
   * text before it is kept and the scan resumes right after it.
   */
  lemma {:induction false} RemoveAllFirstOccurrence(pat: string, a: string, b: string)
    requires pat != [] && !Occurs(pat, a + pat[..|pat| - 1])
    ensures RemoveAll(pat, a + pat + b) == a + RemoveAll(pat, b)
    decreases |a|
  {
    if a == [] {
      var s := a + pat + b;
      assert s[..|pat|] == pat && s[|pat|..] == b;
    } else {
      var t := a[1..];
      SkipBeforeFirstOccurrence(pat, a, b);
      RemoveAllFirstOccurrence(pat, t, b);
      assert [a[0]] + t == a;
      AppendAssociative([a[0]], t, RemoveAll(pat, b));
    }
  }

  /** Before the first occurrence, `replace` keeps one character and goes on with the same shape of input. */
  lemma SkipBeforeFirstOccurrence(pat: string, a: string, b: string)
    requires pat != [] && a != [] && !Occurs(pat, a + pat[..|pat| - 1])
    ensures RemoveAll(pat, a + pat + b) == [a[0]] + RemoveAll(pat, a[1..] + pat + b)
    ensures !Occurs(pat, a[1..] + pat[..|pat| - 1])
  {
    var s := a + pat + b;
    var head := a + pat[..|pat| - 1];
    assert RemoveAll(pat, s) == [s[0]] + RemoveAll(pat, s[1..]) by {
      assert s[..|pat|] == head[..|pat|];
      assert !MatchesAt(pat, head, 0);
      RemoveAllStep(pat, s);
    }
    assert !Occurs(pat, a[1..] + pat[..|pat| - 1]) by {
      NoOccurrenceInTail(pat, head);
      assert head[1..] == a[1..] + pat[..|pat| - 1];
    }
    assert s[1..] == a[1..] + pat + b;
  }

  /** Where `pat` does not match at the start, `replace` keeps the first character. */
  lemma RemoveAllStep(pat: string, s: string)
    requires pat != [] && |s| >= |pat| && s[..|pat|] != pat
    ensures RemoveAll(pat, s) == [s[0]] + RemoveAll(pat, s[1..])
  {
  }

  /** Dropping the first character creates no occurrence. */
  lemma NoOccurrenceInTail(pat: string, s: string)
    requires s != [] && !Occurs(pat, s)
    ensures !Occurs(pat, s[1..])
  {
    forall i | 0 <= i <= |s[1..]|
      ensures !MatchesAt(pat, s[1..], i)
    {
      if i + |pat| <= |s[1..]| {
        assert s[1..][i..i + |pat|] == s[i + 1..i + 1 + |pat|];
        assert !MatchesAt(pat, s, i + 1);
      }
    }
  }

  /** Right-stripping twice is right-stripping once. */
  lemma RStripIdempotent(s: string)
    ensures RStrip(RStrip(s)) == RStrip(s)
  {
    var r := RStrip(s);
    if r != [] {
      assert !IsSpace(r[|r| - 1]);
    }
  }

  /** Trailing whitespace of the tail does not change what `strip` keeps. */
  lemma StripIgnoresTailWhitespace(a: string, b: string)
    ensures Strip(a + RStrip(b)) == Strip(a + b)
  {
    RStripIdempotent(b);
    RStripConcat(a, RStrip(b));
    RStripConcat(a, b);
  }

  /** Text ending in a non-blank stops `rstrip`: only the part after it is trimmed. */
  lemma RStripAfterSolid(a: string, solid: string, b: string)
    requires solid != [] && !IsSpace(solid[|solid| - 1])
    ensures RStrip(a + solid + b) == a + solid + RStrip(b)
  {
    RStripConcat(a + solid, b);
    var s := a + solid;
    assert s[|s| - 1] == solid[|solid| - 1];
    assert RStrip(s) == s;
  }

  /** A leading occurrence and one further occurrence are both deleted when nothing else matches. */
  lemma RemoveAllTwoOccurrences(pat: string, a: string, c: string)
    requires pat != [] && !Occurs(pat, a + pat[..|pat| - 1]) && !Occurs(pat, c)
    ensures RemoveAll(pat, pat + ((a + pat) + c)) == a + c
  {
    var s := pat + ((a + pat) + c);
    assert RemoveAll(pat, s) == RemoveAll(pat, (a + pat) + c) by {
      assert s[..|pat|] == pat && s[|pat|..] == (a + pat) + c;
    }
    RemoveAllFirstOccurrence(pat, a, c);
    RemoveAllNoOccurrence(pat, c);
  }

  /** Whitespace put in front of `m1` and trailing whitespace of `m2` do not change what `strip` keeps of `m1 + m2`. */
  lemma StripJoinedHalves(blank: string, m1: string, m2: string)
    requires AllSpace(blank)
    ensures Strip(blank + m1 + RStrip(m2)) == Strip(m1 + m2)
  {
    var a, m := blank + m1, m1 + m2;
    assert Strip(a + RStrip(m2)) == Strip(a + m2) by {
      StripIgnoresTailWhitespace(a, m2);
    }
    assert Strip(a + m2) == Strip(m) by {
      AppendAssociative(blank, m1, m2);
      StripOfBlankPrefixed(blank, m);
    }
  }

  lemma AppendAssociative(a: string, b: string, c: string)
    ensures a + b + c == a + (b + c)
  {
  }

  /** Leading whitespace does not change what `strip` keeps. */
  lemma StripOfBlankPrefixed(blank: string, m: string)
    requires AllSpace(blank)
    ensures Strip(blank + m) == Strip(m)
  {
    RStripConcat(blank, m);
    if RStrip(m) == [] {
      RStripOfAllSpace(blank);
    } else {
      LStripOfAllSpace(blank);
      LStripConcat(blank, RStrip(m));
    }
  }

  /** A leading blank does not change what `strip` keeps, even after right-stripping. */
  lemma StripOfSpacePrefixed(m: string)
    ensures Strip(RStrip(" " + m)) == Strip(m)
  {
    RStripIdempotent(" " + m);
    assert AllSpace(" ");
    StripOfBlankPrefixed(" ", m);
  }
}
