/**
 * Strings as the feedback widget handles them: the whitespace that
 * JavaScript's `String.prototype.trim` strips, `trim` itself, and the
 * three-way split that draws one highlighted record over the output text.
 */
module Text {
  import opened Wrappers

  /**
   * The characters `trim` removes: ECMAScript's WhiteSpace production (tab,
   * vertical tab, form feed, the byte-order mark and every space separator)
   * and its LineTerminator production (LF, CR, LS, PS).
   */
  predicate IsWhitespace(c: char)
  {
    var n := c as int;
    n == 0x09 || n == 0x0A || n == 0x0B || n == 0x0C || n == 0x0D
    || n == 0x20 || n == 0xA0 || n == 0x1680 || (0x2000 <= n <= 0x200A)
    || n == 0x2028 || n == 0x2029 || n == 0x202F || n == 0x205F
    || n == 0x3000 || n == 0xFEFF
  }

  /** A string made of whitespace only (the empty string included). */
  predicate IsBlank(s: string)
  {
    forall k :: 0 <= k < |s| ==> IsWhitespace(s[k])
  }

  /** `s` without its leading whitespace: a suffix of `s`. */
  function TrimStart(s: string): (r: string)
    ensures |r| <= |s| && r == s[|s| - |r|..]
  {
    if s != [] && IsWhitespace(s[0]) then TrimStart(s[1..]) else s
  }

  /** `s` without its trailing whitespace: a prefix of `s`. */
  function TrimEnd(s: string): (r: string)
    ensures |r| <= |s| && r == s[..|r|]
  {
    if s != [] && IsWhitespace(s[|s| - 1]) then TrimEnd(s[..|s| - 1]) else s
  }

  /** `TrimStart` cuts off only whitespace, and stops at a character that is not whitespace. */
  lemma {:induction false} TrimStartCuts(s: string)
    ensures IsBlank(s[..|s| - |TrimStart(s)|])
    ensures TrimStart(s) != [] ==> !IsWhitespace(TrimStart(s)[0])
  {
    if s != [] && IsWhitespace(s[0]) {
      TrimStartCuts(s[1..]);
      var k := |s| - |TrimStart(s)|;
      assert s[..k] == [s[0]] + s[1..][..k - 1];
    }
  }

  /** `TrimEnd` cuts off only whitespace, and stops at a character that is not whitespace. */
  lemma {:induction false} TrimEndCuts(s: string)
    ensures IsBlank(s[|TrimEnd(s)|..])
    ensures TrimEnd(s) != [] ==> !IsWhitespace(TrimEnd(s)[|TrimEnd(s)| - 1])
  {
    if s != [] && IsWhitespace(s[|s| - 1]) {
      var init := s[..|s| - 1];
      TrimEndCuts(init);
      var k := |TrimEnd(s)|;
      assert s[k..] == init[k..] + [s[|s| - 1]];
    }
  }

  /** JavaScript's `s.trim()`: whitespace removed at both ends. */
  function Trim(s: string): (r: string)
    ensures |r| <= |s|
  {
    TrimEnd(TrimStart(s))
  }

  /** The trimmed string is empty exactly when the string is blank. */
  lemma TrimBlank(s: string)
    ensures Trim(s) == [] <==> IsBlank(s)
  {
    var t := TrimStart(s);
    TrimStartCuts(s);
    TrimEndCuts(t);
    if Trim(s) == [] {
      assert t[0..] == t;
      assert s == s[..|s| - |t|] + t;
    }
  }

  /** A non-empty trimmed string starts and ends with a character that is not whitespace. */
  lemma TrimEnds(s: string)
    ensures Trim(s) != [] ==> !IsWhitespace(Trim(s)[0]) && !IsWhitespace(Trim(s)[|Trim(s)| - 1])
  {
    var t := TrimStart(s);
    var r := TrimEnd(t);
    TrimStartCuts(s);
    TrimEndCuts(t);
    if r != [] {
      assert r[0] == t[0];
    }
  }

  /** `r` is the slice of `s` at offset `i`, with only whitespace before and after it. */
  predicate Framed(s: string, i: nat, r: string)
  {
    i + |r| <= |s| && r == s[i..i + |r|] && IsBlank(s[..i]) && IsBlank(s[i + |r|..])
  }

  /** A prefix `r` of a suffix `t` of `s`, where both cuts are blank, is framed in `s`. */
  lemma BetweenBlanks(s: string, t: string, r: string)
    requires |t| <= |s| && t == s[|s| - |t|..] && IsBlank(s[..|s| - |t|])
    requires |r| <= |t| && r == t[..|r|] && IsBlank(t[|r|..])
    ensures Framed(s, |s| - |t|, r)
  {
    assert s[|s| - |t| + |r|..] == t[|r|..];
  }

  /**
   * The trimmed string is the infix of `s` that starts where `TrimStart`
   * stopped, with only whitespace before and after it.
   */
  lemma TrimInfix(s: string)
    ensures Framed(s, |s| - |TrimStart(s)|, Trim(s))
  {
    var t := TrimStart(s);
    TrimStartCuts(s);
    TrimEndCuts(t);
    BetweenBlanks(s, t, TrimEnd(t));
  }

  /** What `highlightedText` draws: the text before the span, the span, and the rest. */
  datatype Highlight = Highlight(before: string, marked: string, after: string)

  /**
   * The split behind `highlightedText`: present exactly when the text is
   * non-empty and `[start, end)` is a non-empty span inside it; then the
   * three parts glue back to the text and the marked part is the span.
   */
  function Split(text: string, start: int, end: int): (r: Option<Highlight>)
    ensures r.Some? <==> text != "" && 0 <= start && end <= |text| && start < end
    ensures r.Some? ==> r.value.before + r.value.marked + r.value.after == text
    ensures r.Some? ==> |r.value.before| == start && |r.value.marked| == end - start
  {
    if text != "" && 0 <= start && end <= |text| && start < end then
      assert text == text[..start] + text[start..end] + text[end..];
      Some(Highlight(text[..start], text[start..end], text[end..]))
    else
      None
  }
}
