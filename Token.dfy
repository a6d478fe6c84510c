/** The token precondition shared by every authenticated operation: a token that
    is nil, empty or made only of whitespace is refused before any request. */
module Token {
  import opened Wrappers
  import opened Gateway

  const MissingTokenMessage := "Authentication token is missing."

  /** The characters Ruby's `String#strip` removes: NUL, tab, line feed,
      vertical tab, form feed, carriage return and space. */
  predicate IsRubySpace(c: char)
  {
    c == '\0' || c == '\t' || c == '\n' || c == '\U{B}' || c == '\U{C}' || c == '\r' || c == ' '
  }

  predicate Blank(s: string)
  {
    forall i | 0 <= i < |s| :: IsRubySpace(s[i])
  }

  /** `String#lstrip`: drop leading whitespace. */
  function LStrip(s: string): string
  {
    if s != [] && IsRubySpace(s[0]) then LStrip(s[1..]) else s
  }

  /** `String#rstrip`: drop trailing whitespace. */
  function RStrip(s: string): string
  {
    if s != [] && IsRubySpace(s[|s| - 1]) then RStrip(s[..|s| - 1]) else s
  }

  /** `lstrip` keeps a suffix, drops only whitespace, and stops at a non-space. */
  lemma {:induction false} LStripSpec(s: string)
    ensures |LStrip(s)| <= |s| && LStrip(s) == s[|s| - |LStrip(s)|..]
    ensures Blank(s[..|s| - |LStrip(s)|])
    ensures LStrip(s) != [] ==> !IsRubySpace(LStrip(s)[0])
  {
    if s != [] && IsRubySpace(s[0]) {
      LStripSpec(s[1..]);
      var r := LStrip(s[1..]);
      assert s[..|s| - |r|] == [s[0]] + s[1..][..|s| - 1 - |r|];
    }
  }

  /** `rstrip` keeps a prefix, drops only whitespace, and stops at a non-space. */
  lemma {:induction false} RStripSpec(s: string)
    ensures |RStrip(s)| <= |s| && RStrip(s) == s[..|RStrip(s)|]
    ensures Blank(s[|RStrip(s)|..])
    ensures RStrip(s) != [] ==> !IsRubySpace(RStrip(s)[|RStrip(s)| - 1])
  {
    if s != [] && IsRubySpace(s[|s| - 1]) {
      RStripSpec(s[..|s| - 1]);
      var r := RStrip(s[..|s| - 1]);
      assert s[|r|..] == s[..|s| - 1][|r|..] + [s[|s| - 1]];
    }
  }

  function Strip(s: string): string
  {
    RStrip(LStrip(s))
  }

  /** `to_s`: nil becomes the empty string. */
  function ToS(token: Option<string>): string
  {
    match token
    case None => ""
    case Some(s) => s
  }

  /** `check_token`'s test, `token.to_s.strip.empty?`. */
  predicate TokenMissing(token: Option<string>)
  {
    Strip(ToS(token)) == []
  }

  /** What an operation does when `check_token` raises: nothing is sent. */
  function Refused<T>(): Run<T>
  {
    Run(Raised(AuthenticationError(MissingTokenMessage)), [])
  }

  lemma {:induction false} StripEmptyIffBlank(s: string)
    ensures Strip(s) == [] <==> Blank(s)
  {
    var l := LStrip(s);
    var k := |s| - |l|;
    var r := RStrip(l);
    LStripSpec(s);
    RStripSpec(l);
    if r == [] {
      // everything RStrip dropped is whitespace, and LStrip stopped at a non-space
      assert Blank(l);
      assert l == [];
      assert s == s[..k];
    } else {
      assert !IsRubySpace(r[|r| - 1]);
      assert s[k + |r| - 1] == r[|r| - 1];
    }
  }

  /** A token is refused exactly when it is nil or made only of whitespace. */
  lemma TokenMissingIff(token: Option<string>)
    ensures TokenMissing(token) <==> token.None? || Blank(token.value)
  {
    StripEmptyIffBlank(ToS(token));
  }

  lemma BlankConcat(a: string, b: string)
    ensures Blank(a + b) <==> Blank(a) && Blank(b)
  {
    if Blank(a + b) {
      forall i | 0 <= i < |a| ensures IsRubySpace(a[i]) {
        assert a[i] == (a + b)[i];
      }
      forall i | 0 <= i < |b| ensures IsRubySpace(b[i]) {
        assert b[i] == (a + b)[|a| + i];
      }
    }
  }

  /** Surrounding whitespace never changes whether a token is accepted. */
  lemma {:induction false} PaddedTokenMissingIff(pre: string, token: string, post: string)
    requires Blank(pre) && Blank(post)
    ensures TokenMissing(Some(pre + token + post)) <==> TokenMissing(Some(token))
  {
    TokenMissingIff(Some(pre + token + post));
    TokenMissingIff(Some(token));
    BlankConcat(pre, token);
    BlankConcat(pre + token, post);
  }
}
