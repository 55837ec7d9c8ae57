/** Rewriting a database URL for the asyncpg driver. */
module DatabaseUrl {
  const ASYNC: string := "postgresql+asyncpg://"
  const SHORT: string := "postgres://"
  const LONG: string := "postgresql://"
  const SSLMODE: string := "sslmode="
  const SSL: string := "ssl="

  predicate StartsWith(s: string, prefix: string) { |prefix| <= |s| && s[..|prefix|] == prefix }

  predicate Mark(c: char) { c == '?' || c == '&' }

  /** The key to rewrite stands at the front. */
  predicate KeyFirst(s: string) { s != "" && Mark(s[0]) && StartsWith(s[1..], SSLMODE) }

  ghost predicate NoKey(s: string) { forall i :: 0 <= i < |s| ==> !KeyFirst(s[i..]) }

  /** `re.sub(r"([?&])sslmode=", r"\1ssl=", s)`. */
  function Rewrite(s: string): string {
    if s == "" then ""
    else if KeyFirst(s) then [s[0]] + (SSL + Rewrite(s[1 + |SSLMODE|..]))
    else [s[0]] + Rewrite(s[1..])
  }

  function WithScheme(url: string): string {
    if StartsWith(url, ASYNC) then url
    else if StartsWith(url, SHORT) then ASYNC + url[|SHORT|..]
    else if StartsWith(url, LONG) then ASYNC + url[|LONG|..]
    else url
  }

  function Normalize(url: string): string { Rewrite(WithScheme(url)) }

  // ---------------------------------------------------------------- what rewriting leaves alone

  predicate Plain(w: string) { forall i :: 0 <= i < |w| ==> !Mark(w[i]) }

  /** Text without `?` and `&` is copied .. */
  lemma {:induction false} RewritePlain(w: string, s: string)
    requires Plain(w)
    ensures Rewrite(w + s) == w + Rewrite(s)
  {
    if w == "" {
      assert w + s == s;
    } else {
      assert (w + s)[1..] == w[1..] + s;
      RewritePlain(w[1..], s);
    }
  }

  /** .. and can only have been copied. */
  lemma {:induction false} PlainOrigin(w: string, s: string)
    requires Plain(w) && StartsWith(Rewrite(s), w)
    ensures StartsWith(s, w)
  {
    if w != "" {
      assert Rewrite(s)[0] == w[0] by { assert Rewrite(s)[..|w|][0] == w[0]; }
      assert s[0] == w[0];
      assert Rewrite(s)[1..] == Rewrite(s[1..]);
      assert StartsWith(Rewrite(s[1..]), w[1..]) by { assert Rewrite(s)[1..][..|w| - 1] == w[1..]; }
      PlainOrigin(w[1..], s[1..]);
      assert s[..|w|] == [s[0]] + s[1..][..|w| - 1];
    }
  }

  lemma PlainConstants()
    ensures Plain(ASYNC) && Plain(SHORT) && Plain(LONG) && Plain(SSLMODE) && Plain(SSL)
  {
  }

  // ---------------------------------------------------------------- no key remains

  lemma NoKeyCons(c: char, s: string)
    requires NoKey(s) && !KeyFirst([c] + s)
    ensures NoKey([c] + s)
  {
    forall i | 0 <= i < |[c] + s| ensures !KeyFirst(([c] + s)[i..]) {
      if i > 0 { assert ([c] + s)[i..] == s[i - 1..]; }
    }
  }

  lemma NoKeySsl(c: char, s: string)
    requires NoKey(s)
    ensures NoKey([c] + (SSL + s))
  {
    PlainConstants();
    NoKeyPlain(SSL, s);
    SslIsNotSslmode(s);
    assert ([c] + (SSL + s))[1..] == SSL + s;
    NoKeyCons(c, SSL + s);
  }

  lemma SslIsNotSslmode(s: string)
    ensures !StartsWith(SSL + s, SSLMODE)
  {
    assert (SSL + s)[3] == '=' && SSLMODE[3] == 'm';
  }

  lemma {:induction false} NoKeyPlain(w: string, s: string)
    requires Plain(w) && NoKey(s)
    ensures NoKey(w + s)
  {
    if w == "" {
      assert w + s == s;
    } else {
      NoKeyPlain(w[1..], s);
      assert w + s == [w[0]] + (w[1..] + s);
      NoKeyCons(w[0], w[1..] + s);
    }
  }

  /** Neither `?sslmode=` nor `&sslmode=` remains, and none is formed from the pieces. */
  lemma {:induction false} NoKeyRemains(s: string)
    ensures NoKey(Rewrite(s))
  {
    if s != "" {
      if KeyFirst(s) {
        NoKeyRemains(s[1 + |SSLMODE|..]);
        NoKeySsl(s[0], Rewrite(s[1 + |SSLMODE|..]));
      } else {
        NoKeyRemains(s[1..]);
        assert ([s[0]] + Rewrite(s[1..]))[1..] == Rewrite(s[1..]);
        PlainConstants();
        if StartsWith(Rewrite(s[1..]), SSLMODE) { PlainOrigin(SSLMODE, s[1..]); }
        NoKeyCons(s[0], Rewrite(s[1..]));
      }
    }
  }

  lemma {:induction false} NothingToRewrite(s: string)
    requires NoKey(s)
    ensures Rewrite(s) == s
  {
    if s != "" {
      assert s[0..] == s;
      forall i | 0 <= i < |s[1..]| ensures !KeyFirst(s[1..][i..]) {
        assert s[1..][i..] == s[i + 1..];
      }
      NothingToRewrite(s[1..]);
    }
  }

  // ---------------------------------------------------------------- locality

  /** The pieces of a text with a separator between them. */
  function Glue(pieces: seq<string>, separator: string): string
    requires pieces != []
  {
    if |pieces| == 1 then pieces[0] else pieces[0] + (separator + Glue(pieces[1..], separator))
  }

  /** Every piece but the last ends in `?` or `&`. */
  predicate Cut(pieces: seq<string>) {
    pieces != [] && forall i :: 0 <= i < |pieces| - 1 ==> pieces[i] != "" && Mark(pieces[i][|pieces[i]| - 1])
  }

  /** Nothing but the keys changes: around them, original and result have the same pieces in the same order. */
  lemma {:induction false} RewriteIsLocal(s: string) returns (pieces: seq<string>)
    ensures Cut(pieces) && Glue(pieces, SSLMODE) == s && Glue(pieces, SSL) == Rewrite(s)
  {
    if s == "" {
      pieces := [""];
    } else if KeyFirst(s) {
      var tail := s[1 + |SSLMODE|..];
      var rest := RewriteIsLocal(tail);
      pieces := [[s[0]]] + rest;
      assert s == [s[0]] + (s[1..][..|SSLMODE|] + tail);
    } else {
      var rest := RewriteIsLocal(s[1..]);
      pieces := [[s[0]] + rest[0]] + rest[1..];
      GlueCons(s[0], rest, SSLMODE);
      GlueCons(s[0], rest, SSL);
    }
  }

  lemma GlueCons(c: char, rest: seq<string>, separator: string)
    requires rest != []
    ensures Glue([[c] + rest[0]] + rest[1..], separator) == [c] + Glue(rest, separator)
  {
    var pieces := [[c] + rest[0]] + rest[1..];
    if |rest| > 1 { assert pieces[1..] == rest[1..]; }
  }

  // ---------------------------------------------------------------- the whole function

  /** A known scheme becomes the asyncpg scheme; the rest is only rewritten. */
  lemma SchemeIsLocal(scheme: string, rest: string)
    requires scheme == ASYNC || scheme == SHORT || scheme == LONG
    ensures Normalize(scheme + rest) == ASYNC + Rewrite(rest)
  {
    PlainConstants();
    var url := scheme + rest;
    assert StartsWith(url, scheme) && url[|scheme|..] == rest;
    if scheme == SHORT { assert url[8] == ':' && ASYNC[8] == 'q'; }
    if scheme == LONG { assert url[10] == ':' && ASYNC[10] == '+' && SHORT[8] == ':' && url[8] == 'q'; }
    assert WithScheme(url) == ASYNC + rest;
    RewritePlain(ASYNC, rest);
  }

  predicate KnownScheme(url: string) { StartsWith(url, ASYNC) || StartsWith(url, SHORT) || StartsWith(url, LONG) }

  lemma OtherSchemeIsLocal(url: string)
    requires !KnownScheme(url)
    ensures Normalize(url) == Rewrite(url) && !KnownScheme(Rewrite(url))
  {
    PlainConstants();
    if StartsWith(Rewrite(url), ASYNC) { PlainOrigin(ASYNC, url); }
    if StartsWith(Rewrite(url), SHORT) { PlainOrigin(SHORT, url); }
    if StartsWith(Rewrite(url), LONG) { PlainOrigin(LONG, url); }
  }

  /** Normalising twice equals normalising once, and leaves no key. */
  lemma NormalizeIdempotent(url: string)
    ensures Normalize(Normalize(url)) == Normalize(url)
    ensures NoKey(Normalize(url))
  {
    NoKeyRemains(WithScheme(url));
    NothingToRewrite(Normalize(url));
    if KnownScheme(url) {
      var scheme := if StartsWith(url, ASYNC) then ASYNC else if StartsWith(url, SHORT) then SHORT else LONG;
      var rest := url[|scheme|..];
      assert url == scheme + rest;
      SchemeIsLocal(scheme, rest);
      assert StartsWith(Normalize(url), ASYNC);
    } else {
      OtherSchemeIsLocal(url);
    }
  }

  // ---------------------------------------------------------------- the same, in the literal texts

  /** No `?sslmode=` or `&sslmode=` is left. */
  lemma NoKeyLeft(url: string, i: nat)
    requires i + 9 <= |Normalize(url)|
    ensures !((Normalize(url)[i] == '?' || Normalize(url)[i] == '&') && Normalize(url)[i + 1..i + 9] == "sslmode=")
  {
    NormalizeIdempotent(url);
    var s := Normalize(url);
    assert !KeyFirst(s[i..]);
    assert s[i..][0] == s[i] && s[i..][1..][..8] == s[i + 1..i + 9];
  }

  /** What becomes of each scheme and of the pieces between the keys. */
  lemma NormalizedText(scheme: string, rest: string) returns (pieces: seq<string>)
    requires scheme == "postgresql+asyncpg://" || scheme == "postgres://" || scheme == "postgresql://"
    ensures Cut(pieces) && Glue(pieces, "sslmode=") == rest
    ensures Normalize(scheme + rest) == "postgresql+asyncpg://" + Glue(pieces, "ssl=")
  {
    SchemeIsLocal(scheme, rest);
    pieces := RewriteIsLocal(rest);
  }

  lemma OtherText(url: string) returns (pieces: seq<string>)
    requires !StartsWith(url, "postgresql+asyncpg://") && !StartsWith(url, "postgres://") && !StartsWith(url, "postgresql://")
    ensures Cut(pieces) && Glue(pieces, "sslmode=") == url && Normalize(url) == Glue(pieces, "ssl=")
  {
    OtherSchemeIsLocal(url);
    pieces := RewriteIsLocal(url);
  }
}
