/**
 * The parts of Python's `str` that the build scripts rely on: `isspace`,
 * `startswith`/`endswith`, the `in` substring test, the first item of
 * `split()`, `splitlines()`, `strip()` and `"\n".join(...)`.
 */
module Text {
  import opened Optional

  /** `c.isspace()`: the characters `str.split()` and `str.strip()` break on. */
  predicate IsSpace(c: char)
  {
    c == ' ' || ('\t' <= c <= '\r') || ('\U{1C}' <= c <= '\U{1F}') || c == '\U{85}' || c == '\U{A0}'
    || c == '\U{1680}' || ('\U{2000}' <= c <= '\U{200A}') || c == '\U{2028}' || c == '\U{2029}'
    || c == '\U{202F}' || c == '\U{205F}' || c == '\U{3000}'
  }

  /** The line boundaries `str.splitlines()` recognises (`\r\n` counts as one). */
  predicate IsLineBreak(c: char)
  {
    c == '\n' || c == '\r' || c == '\U{0B}' || c == '\U{0C}' || ('\U{1C}' <= c <= '\U{1E}')
    || c == '\U{85}' || c == '\U{2028}' || c == '\U{2029}'
  }

  predicate NoLineBreak(s: string)
  {
    forall i :: 0 <= i < |s| ==> !IsLineBreak(s[i])
  }

  /** Nothing but space characters: `s.split() == []`. */
  predicate Blank(s: string)
  {
    forall i :: 0 <= i < |s| ==> IsSpace(s[i])
  }

  /** A non-empty run of non-space characters: what `split()` yields. */
  predicate IsToken(s: string)
  {
    s != [] && forall i :: 0 <= i < |s| ==> !IsSpace(s[i])
  }

  predicate StartsWith(s: string, prefix: string)
  {
    |prefix| <= |s| && s[..|prefix|] == prefix
  }

  predicate EndsWith(s: string, suffix: string)
  {
    |suffix| <= |s| && s[|s| - |suffix|..] == suffix
  }

  /** Python's `needle in s` for strings. */
  predicate Contains(s: string, needle: string)
    decreases |s|
  {
    StartsWith(s, needle) || (s != [] && Contains(s[1..], needle))
  }

  /** Concatenation regroups; stated once so that long texts need not be compared character by character. */
  lemma Regroup(a: string, b: string, c: string)
    ensures a + (b + c) == (a + b) + c
  {
  }

  lemma {:induction false} ContainsExtendRight(s: string, needle: string, tail: string)
    requires Contains(s, needle)
    ensures Contains(s + tail, needle)
    decreases |s|
  {
    if StartsWith(s, needle) {
      assert (s + tail)[..|needle|] == s[..|needle|];
    } else {
      ContainsExtendRight(s[1..], needle, tail);
      assert (s + tail)[1..] == s[1..] + tail;
    }
  }

  lemma {:induction false} ContainsExtendLeft(head: string, s: string, needle: string)
    requires Contains(s, needle)
    ensures Contains(head + s, needle)
    decreases |head|
  {
    if head == [] {
      assert head + s == s;
    } else {
      ContainsExtendLeft(head[1..], s, needle);
      assert (head + s)[1..] == head[1..] + s;
    }
  }

  /** Whatever surrounds it, a string contains itself. */
  lemma ContainsInfix(head: string, needle: string, tail: string)
    ensures Contains(head + needle + tail, needle)
  {
    assert StartsWith(needle, needle);
    ContainsExtendRight(needle, needle, tail);
    ContainsExtendLeft(head, needle + tail, needle);
    assert head + needle + tail == head + (needle + tail);
  }

  /** What contains a string contains each of its prefixes. */
  lemma {:induction false} ContainsStartOf(s: string, needle: string, start: string)
    requires Contains(s, needle) && StartsWith(needle, start)
    ensures Contains(s, start)
    decreases |s|
  {
    if StartsWith(s, needle) {
      assert s[..|start|] == needle[..|start|];
    } else {
      ContainsStartOf(s[1..], needle, start);
    }
  }

  /** `s.lstrip()`. */
  function DropSpace(s: string): (rest: string)
    ensures |rest| <= |s| && rest == s[|s| - |rest|..]
    ensures forall i :: 0 <= i < |s| - |rest| ==> IsSpace(s[i])
    ensures rest != [] ==> !IsSpace(rest[0])
  {
    if s != [] && IsSpace(s[0]) then DropSpace(s[1..]) else s
  }

  /** `s.rstrip()`. */
  function DropTrailingSpace(s: string): (rest: string)
    ensures |rest| <= |s| && rest == s[..|rest|]
    ensures forall i :: |rest| <= i < |s| ==> IsSpace(s[i])
    ensures rest != [] ==> !IsSpace(rest[|rest| - 1])
  {
    if s != [] && IsSpace(s[|s| - 1]) then DropTrailingSpace(s[..|s| - 1]) else s
  }

  /** `s.strip()`. */
  function Strip(s: string): string
  {
    DropSpace(DropTrailingSpace(s))
  }

  /** What `strip()` leaves: a stretch of `s` with no space at either end, empty exactly when `s` is blank. */
  lemma StripShape(s: string)
    ensures Contains(s, Strip(s))
    ensures Strip(s) != [] ==> !IsSpace(Strip(s)[0]) && !IsSpace(Strip(s)[|Strip(s)| - 1])
    ensures Strip(s) == [] <==> Blank(s)
  {
    StripIsInfix(s);
    StripEnds(s);
    StripEmpty(s);
  }

  lemma StripIsInfix(s: string)
    ensures Contains(s, Strip(s))
  {
    var trimmed := DropTrailingSpace(s);
    var stripped := DropSpace(trimmed);
    var i := |trimmed| - |stripped|;
    assert trimmed == trimmed[..i] + stripped;
    assert s == trimmed + s[|trimmed|..];
    ContainsInfix(trimmed[..i], stripped, s[|trimmed|..]);
  }

  lemma StripEnds(s: string)
    ensures Strip(s) != [] ==> !IsSpace(Strip(s)[0]) && !IsSpace(Strip(s)[|Strip(s)| - 1])
  {
    var trimmed := DropTrailingSpace(s);
    var stripped := DropSpace(trimmed);
    assert stripped != [] ==> stripped[|stripped| - 1] == trimmed[|trimmed| - 1];
  }

  lemma StripEmpty(s: string)
    ensures Strip(s) == [] <==> Blank(s)
  {
    var trimmed := DropTrailingSpace(s);
    var stripped := DropSpace(trimmed);
    assert trimmed != [] ==> trimmed[|trimmed| - 1] == s[|trimmed| - 1];
    assert trimmed != [] ==> stripped != [];
  }

  /** The longest prefix of `s` free of space characters. */
  function TakeToken(s: string): (token: string)
    ensures |token| <= |s| && token == s[..|token|]
    ensures forall i :: 0 <= i < |token| ==> !IsSpace(token[i])
    ensures |token| < |s| ==> IsSpace(s[|token|])
  {
    if s == [] || IsSpace(s[0]) then [] else [s[0]] + TakeToken(s[1..])
  }

  /** `s.split()[0]`, or None where Python raises IndexError (a blank string). */
  function FirstToken(s: string): (token: Option<string>)
    ensures token.None? <==> Blank(s)
    ensures token.Some? ==> IsToken(token.value)
  {
    var rest := DropSpace(s);
    if rest == [] then None else Some(TakeToken(rest))
  }

  /** A string with a non-space character has a first token. */
  lemma HasFirstToken(s: string, i: nat)
    requires i < |s| && !IsSpace(s[i])
    ensures FirstToken(s).Some?
  {
  }

  lemma {:induction false} DropLeadingSpace(lead: string, rest: string)
    requires forall i :: 0 <= i < |lead| ==> IsSpace(lead[i])
    requires rest == [] || !IsSpace(rest[0])
    ensures DropSpace(lead + rest) == rest
    decreases |lead|
  {
    if lead == [] {
      assert lead + rest == rest;
    } else {
      assert (lead + rest)[1..] == lead[1..] + rest;
      DropLeadingSpace(lead[1..], rest);
    }
  }

  lemma {:induction false} TakeWholeToken(token: string, trail: string)
    requires forall i :: 0 <= i < |token| ==> !IsSpace(token[i])
    requires trail == [] || IsSpace(trail[0])
    ensures TakeToken(token + trail) == token
    decreases |token|
  {
    if token == [] {
      assert token + trail == trail;
    } else {
      assert (token + trail)[1..] == token[1..] + trail;
      TakeWholeToken(token[1..], trail);
    }
  }

  /** A line laid out as blanks, a token and a blank-led rest splits to that token first. */
  lemma FirstTokenOf(lead: string, token: string, trail: string)
    requires forall i :: 0 <= i < |lead| ==> IsSpace(lead[i])
    requires IsToken(token)
    requires trail == [] || IsSpace(trail[0])
    ensures FirstToken(lead + token + trail) == Some(token)
  {
    assert lead + token + trail == lead + (token + trail);
    DropLeadingSpace(lead, token + trail);
    TakeWholeToken(token, trail);
  }

  /** Index of the first line boundary in `s`, or `|s|` when there is none. */
  function LineEnd(s: string): (k: nat)
    ensures k <= |s| && NoLineBreak(s[..k])
    ensures k < |s| ==> IsLineBreak(s[k])
  {
    if s == [] || IsLineBreak(s[0]) then 0 else 1 + LineEnd(s[1..])
  }

  /** `s.splitlines()`: no line keeps its terminator, and a final terminator adds no empty line. */
  function SplitLines(s: string): (lines: seq<string>)
    ensures forall i :: 0 <= i < |lines| ==> NoLineBreak(lines[i])
    ensures s == [] <==> lines == []
    decreases |s|
  {
    if s == [] then []
    else
      var k := LineEnd(s);
      if k == |s| then [s]
      else
        var next := if s[k] == '\r' && k + 1 < |s| && s[k + 1] == '\n' then k + 2 else k + 1;
        [s[..k]] + SplitLines(s[next..])
  }

  /** `"\n".join(lines)`. */
  function JoinLines(lines: seq<string>): string
  {
    if lines == [] then []
    else if |lines| == 1 then lines[0]
    else lines[0] + "\n" + JoinLines(lines[1..])
  }

  /**
   * Joining with "\n" and splitting again gives the lines back, provided no
   * line holds a boundary and the last line is not empty (`"a\n".splitlines()`
   * drops the empty line after the final "\n").
   */
  lemma {:induction false} SplitJoinLines(lines: seq<string>)
    requires forall i :: 0 <= i < |lines| ==> NoLineBreak(lines[i])
    requires lines != [] ==> lines[|lines| - 1] != []
    ensures SplitLines(JoinLines(lines)) == lines
    decreases |lines|
  {
    if lines == [] {
    } else if |lines| == 1 {
      var s := lines[0];
      assert LineEnd(s) == |s| by { LineEndOfUnbroken(s, []); }
    } else {
      SplitJoinLines(lines[1..]);
      SplitFirstLine(lines[0], JoinLines(lines[1..]));
      assert lines == [lines[0]] + lines[1..];
    }
  }

  /** A line followed by "\n" comes out of the split whole, whatever follows it. */
  lemma SplitFirstLine(line: string, rest: string)
    requires NoLineBreak(line)
    ensures SplitLines(line + "\n" + rest) == [line] + SplitLines(rest)
  {
    var s := line + "\n" + rest;
    LineEndOfUnbroken(line, "\n" + rest);
    Regroup(line, "\n", rest);
    assert s[|line|] == '\n';
    assert s[|line| + 1..] == rest;
    assert s[..|line|] == line;
  }

  lemma {:induction false} LineEndOfUnbroken(line: string, rest: string)
    requires NoLineBreak(line)
    requires rest == [] || IsLineBreak(rest[0])
    ensures LineEnd(line + rest) == |line|
    decreases |line|
  {
    if line == [] {
      assert line + rest == rest;
    } else {
      assert (line + rest)[1..] == line[1..] + rest;
      assert NoLineBreak(line[1..]) by {
        forall i | 0 <= i < |line| - 1 ensures !IsLineBreak(line[1..][i]) {
          assert line[1..][i] == line[i + 1];
        }
      }
      LineEndOfUnbroken(line[1..], rest);
    }
  }
}
