/** Whitespace trimming as Python's `str.strip` and JavaScript's `String.trim` perform it. */
module Text {
  /** The characters for which Python's `str.isspace` holds. */
  predicate PythonSpace(c: char) {
    var n := c as int;
    || 9 <= n <= 13 || 28 <= n <= 32 || n == 0x85 || n == 0xA0 || n == 0x1680 || 0x2000 <= n <= 0x200A
    || n == 0x2028 || n == 0x2029 || n == 0x202F || n == 0x205F || n == 0x3000
  }

  /** ECMAScript white space and line terminators. */
  predicate ScriptSpace(c: char) {
    var n := c as int;
    || 9 <= n <= 13 || n == 32 || n == 0xA0 || n == 0x1680 || 0x2000 <= n <= 0x200A
    || n == 0x2028 || n == 0x2029 || n == 0x202F || n == 0x205F || n == 0x3000 || n == 0xFEFF
  }

  function TrimStart(s: string, space: char -> bool): string {
    if s != "" && space(s[0]) then TrimStart(s[1..], space) else s
  }

  function TrimEnd(s: string, space: char -> bool): string {
    if s != "" && space(s[|s| - 1]) then TrimEnd(s[..|s| - 1], space) else s
  }

  function Trim(s: string, space: char -> bool): string { TrimEnd(TrimStart(s, space), space) }

  function Strip(s: string): string { Trim(s, PythonSpace) }

  function ScriptTrim(s: string): string { Trim(s, ScriptSpace) }

  /** Neither end of a trimmed text is a space, and an already trimmed text is left alone. */
  predicate Trimmed(s: string, space: char -> bool) {
    s == "" || (!space(s[0]) && !space(s[|s| - 1]))
  }

  lemma {:induction false} TrimStartFirst(s: string, space: char -> bool)
    ensures var t := TrimStart(s, space); t == "" || !space(t[0])
  {
    if s != "" && space(s[0]) {
      TrimStartFirst(s[1..], space);
    }
  }

  lemma {:induction false} TrimEndEnds(s: string, space: char -> bool)
    requires s == "" || !space(s[0])
    ensures Trimmed(TrimEnd(s, space), space)
  {
    if s != "" && space(s[|s| - 1]) {
      TrimEndEnds(s[..|s| - 1], space);
    }
  }

  lemma TrimIdempotent(s: string, space: char -> bool)
    ensures Trimmed(Trim(s, space), space)
    ensures Trim(Trim(s, space), space) == Trim(s, space)
  {
    TrimStartFirst(s, space);
    TrimEndEnds(TrimStart(s, space), space);
  }

  predicate AllSpace(s: string, space: char -> bool) { forall i :: 0 <= i < |s| ==> space(s[i]) }

  lemma {:induction false} TrimStartRemoves(s: string, space: char -> bool) returns (pre: string)
    ensures s == pre + TrimStart(s, space) && AllSpace(pre, space)
  {
    pre := "";
    if s != "" && space(s[0]) {
      pre := TrimStartRemoves(s[1..], space);
      pre := [s[0]] + pre;
    }
  }

  lemma {:induction false} TrimEndRemoves(s: string, space: char -> bool) returns (post: string)
    ensures s == TrimEnd(s, space) + post && AllSpace(post, space)
  {
    post := "";
    if s != "" && space(s[|s| - 1]) {
      post := TrimEndRemoves(s[..|s| - 1], space);
      post := post + [s[|s| - 1]];
    }
  }

  /** Trimming removes the spaces at both ends and nothing else. */
  lemma TrimExactly(s: string, space: char -> bool) returns (pre: string, post: string)
    ensures s == pre + Trim(s, space) + post && AllSpace(pre, space) && AllSpace(post, space)
    ensures Trim(s, space) == "" || (!space(Trim(s, space)[0]) && !space(Trim(s, space)[|Trim(s, space)| - 1]))
  {
    pre := TrimStartRemoves(s, space);
    post := TrimEndRemoves(TrimStart(s, space), space);
    assert pre + (Trim(s, space) + post) == pre + Trim(s, space) + post;
    TrimIdempotent(s, space);
  }
}
