/** Path templating: `re.sub(":" + key, str(value), path)` for one key, and
    the key-by-key substitution the dispatcher performs. Keys are restricted
    to identifier characters, so the pattern is a literal, and replacement
    strings carry no backslash, so `re.sub` inserts them verbatim; under those
    restrictions `re.sub` is the left-to-right, non-overlapping literal
    replace-all below. */
module Template {
  import opened Values

  predicate IsIdentifierChar(c: char) {
    ('a' <= c <= 'z') || ('A' <= c <= 'Z') || ('0' <= c <= '9') || c == '_'
  }

  predicate IsIdentifier(key: string) {
    forall i :: 0 <= i < |key| ==> IsIdentifierChar(key[i])
  }

  predicate OccursAt(s: string, pat: string, i: nat) {
    i + |pat| <= |s| && s[i..i + |pat|] == pat
  }

  predicate Occurs(s: string, pat: string) {
    exists i: nat | i <= |s| :: OccursAt(s, pat, i)
  }

  /** Literal replace-all, scanning left to right; text produced by a
      replacement is never rescanned. */
  function ReplaceAll(s: string, pat: string, rep: string): string
    requires pat != []
    decreases |s|
  {
    if |s| < |pat| then s
    else if s[..|pat|] == pat then rep + ReplaceAll(s[|pat|..], pat, rep)
    else [s[0]] + ReplaceAll(s[1..], pat, rep)
  }

  /** The number of replacements ReplaceAll makes. */
  function MatchCount(s: string, pat: string): nat
    requires pat != []
    decreases |s|
  {
    if |s| < |pat| then 0
    else if s[..|pat|] == pat then 1 + MatchCount(s[|pat|..], pat)
    else MatchCount(s[1..], pat)
  }

  function CharCount(c: char, s: string): (n: nat)
    ensures n == 0 <==> c !in s
    ensures n <= |s|
  {
    if s == [] then 0 else (if s[0] == c then 1 else 0) + CharCount(c, s[1..])
  }

  lemma {:induction false} CharCountAppend(c: char, a: string, b: string)
    ensures CharCount(c, a + b) == CharCount(c, a) + CharCount(c, b)
  {
    if a != [] {
      assert (a + b)[0] == a[0] && (a + b)[1..] == a[1..] + b;
      CharCountAppend(c, a[1..], b);
    } else {
      assert a + b == b;
    }
  }

  /** A text in which the pattern does not occur is left unchanged. */
  lemma {:induction false} ReplaceAllNoMatch(s: string, pat: string, rep: string)
    requires pat != []
    requires !Occurs(s, pat)
    ensures ReplaceAll(s, pat, rep) == s
  {
    if |s| >= |pat| {
      assert !OccursAt(s, pat, 0);
      forall i: nat ensures !OccursAt(s[1..], pat, i) {
        assert !OccursAt(s, pat, i + 1);
        if i + |pat| <= |s[1..]| {
          assert s[1..][i..i + |pat|] == s[i + 1..i + 1 + |pat|];
        }
      }
      ReplaceAllNoMatch(s[1..], pat, rep);
    }
  }

  /** When the pattern is ':' followed by colon-free text and the replacement
      has no colon, each replacement removes exactly one colon. */
  lemma {:induction false} ReplaceAllColons(s: string, pat: string, rep: string)
    requires pat != [] && pat[0] == ':' && ':' !in pat[1..] && ':' !in rep
    ensures CharCount(':', ReplaceAll(s, pat, rep)) + MatchCount(s, pat) == CharCount(':', s)
    decreases |s|
  {
    if |s| < |pat| {
    } else if s[..|pat|] == pat {
      assert s == pat + s[|pat|..];
      assert pat == [':'] + pat[1..];
      CharCountAppend(':', pat, s[|pat|..]);
      CharCountAppend(':', [':'], pat[1..]);
      CharCountAppend(':', rep, ReplaceAll(s[|pat|..], pat, rep));
      ReplaceAllColons(s[|pat|..], pat, rep);
    } else {
      assert s == [s[0]] + s[1..];
      CharCountAppend(':', [s[0]], s[1..]);
      CharCountAppend(':', [s[0]], ReplaceAll(s[1..], pat, rep));
      ReplaceAllColons(s[1..], pat, rep);
    }
  }

  /** If every colon of the text starts a replaced placeholder and the value
      brings no colon of its own, no placeholder for the key survives. */
  lemma NoPlaceholderLeft(s: string, key: string, rep: string)
    requires ':' !in key && ':' !in rep
    requires CharCount(':', s) == MatchCount(s, ":" + key)
    ensures !Occurs(ReplaceAll(s, ":" + key, rep), ":" + key)
  {
    var pat := ":" + key;
    assert pat[1..] == key;
    ReplaceAllColons(s, pat, rep);
    var r := ReplaceAll(s, pat, rep);
    forall i: nat | i <= |r| ensures !OccursAt(r, pat, i) {
      if i + |pat| <= |r| {
        assert r[i..i + |pat|][0] == r[i];
      }
    }
  }

  /** Without the colon restriction a placeholder can survive its own
      substitution, although the value does not contain it: the text to the
      left of a match can complete a new one with the value. */
  lemma PlaceholderCanSurvive()
    ensures !Occurs("b", ":ab")
    ensures ReplaceAll(":a:ab", ":ab", "b") == ":ab"
  {
    assert ReplaceAll(":ab", ":ab", "b") == "b" + ReplaceAll("", ":ab", "b");
    assert ReplaceAll("a:ab", ":ab", "b") == "a" + ReplaceAll(":ab", ":ab", "b");
    assert ReplaceAll(":a:ab", ":ab", "b") == ":" + ReplaceAll("a:ab", ":ab", "b");
  }

  // ---------------------------------------------------------------------
  // substitution of all params, in order

  /** What `_get_full_path` demands of its params for `re.sub` to act as a
      literal replace-all. */
  predicate SafeParams(params: seq<(string, Value)>) {
    forall i :: 0 <= i < |params| ==> IsIdentifier(params[i].0) && '\\' !in PyStr(params[i].1)
  }

  /** Each key in turn replaces every `:key` by `str(value)`. */
  function Substitute(path: string, params: seq<(string, Value)>): string
    requires SafeParams(params)
    decreases |params|
  {
    if params == [] then path
    else Substitute(ReplaceAll(path, ":" + params[0].0, PyStr(params[0].1)), params[1..])
  }

  /** Substituting a concatenation of param lists is substituting one list after the other. */
  lemma {:induction false} SubstituteSequential(path: string, p: seq<(string, Value)>, q: seq<(string, Value)>)
    requires SafeParams(p) && SafeParams(q)
    ensures SafeParams(p + q)
    ensures Substitute(path, p + q) == Substitute(Substitute(path, p), q)
    decreases |p|
  {
    assert SafeParams(p + q) by {
      forall i | 0 <= i < |p + q|
        ensures IsIdentifier((p + q)[i].0) && '\\' !in PyStr((p + q)[i].1)
      {
        if i < |p| { assert (p + q)[i] == p[i]; } else { assert (p + q)[i] == q[i - |p|]; }
      }
    }
    if p != [] {
      assert (p + q)[0] == p[0] && (p + q)[1..] == p[1..] + q;
      SubstituteSequential(ReplaceAll(path, ":" + p[0].0, PyStr(p[0].1)), p[1..], q);
    } else {
      assert p + q == q;
    }
  }

  lemma ShortTokenFirst()
    ensures ReplaceAll("/v/:tokenId", ":token", "7") == "/v/7Id"
  {
    assert ReplaceAll("Id", ":token", "7") == "Id";
    assert ReplaceAll(":tokenId", ":token", "7") == "7" + ReplaceAll("Id", ":token", "7");
    assert ReplaceAll("/:tokenId", ":token", "7") == "/" + ReplaceAll(":tokenId", ":token", "7");
    assert ReplaceAll("v/:tokenId", ":token", "7") == "v" + ReplaceAll("/:tokenId", ":token", "7");
  }

  lemma LongTokenFirst()
    ensures ReplaceAll("/v/:tokenId", ":tokenId", "42") == "/v/42"
  {
    assert ReplaceAll(":tokenId", ":tokenId", "42") == "42" + ReplaceAll("", ":tokenId", "42");
    assert ReplaceAll("/:tokenId", ":tokenId", "42") == "/" + ReplaceAll(":tokenId", ":tokenId", "42");
    assert ReplaceAll("v/:tokenId", ":tokenId", "42") == "v" + ReplaceAll("/:tokenId", ":tokenId", "42");
  }

  lemma NoColonNoMatch(s: string, pat: string, rep: string)
    requires pat != [] && pat[0] == ':' && ':' !in s
    ensures ReplaceAll(s, pat, rep) == s
  {
    forall i: nat | i <= |s| ensures !OccursAt(s, pat, i) {
      if i + |pat| <= |s| {
        assert s[i..i + |pat|][0] == s[i];
      }
    }
    ReplaceAllNoMatch(s, pat, rep);
  }

  lemma TokenParamsSafe()
    ensures SafeParams([("token", Str("7")), ("tokenId", Str("42"))])
    ensures SafeParams([("tokenId", Str("42")), ("token", Str("7"))])
  {
    assert IsIdentifier("token") && IsIdentifier("tokenId") by {
      assert forall i :: 0 <= i < |"tokenId"| ==> IsIdentifierChar("tokenId"[i]);
    }
  }

  /** A key that is a prefix of another clobbers the longer placeholder when
      it comes first, and does not when it comes second. */
  lemma PrefixKeyClobbers()
    ensures SafeParams([("token", Str("7")), ("tokenId", Str("42"))])
    ensures Substitute("/v/:tokenId", [("token", Str("7")), ("tokenId", Str("42"))]) == "/v/7Id"
  {
    TokenParamsSafe();
    var ps := [("token", Str("7")), ("tokenId", Str("42"))];
    var rest := [("tokenId", Str("42"))];
    assert ps[0].0 == "token" && PyStr(ps[0].1) == "7" && ps[1..] == rest;
    assert ":" + ps[0].0 == ":token";
    ShortTokenFirst();
    assert Substitute("/v/:tokenId", ps) == Substitute("/v/7Id", rest);
    assert ":" + rest[0].0 == ":tokenId" && PyStr(rest[0].1) == "42" && rest[1..] == [];
    NoColonNoMatch("/v/7Id", ":tokenId", "42");
    assert Substitute("/v/7Id", rest) == Substitute("/v/7Id", []);
  }

  /** In the other order each placeholder gets its own value. */
  lemma LongerKeyFirst()
    ensures SafeParams([("tokenId", Str("42")), ("token", Str("7"))])
    ensures Substitute("/v/:tokenId", [("tokenId", Str("42")), ("token", Str("7"))]) == "/v/42"
  {
    TokenParamsSafe();
    var ps := [("tokenId", Str("42")), ("token", Str("7"))];
    var rest := [("token", Str("7"))];
    assert ps[0].0 == "tokenId" && PyStr(ps[0].1) == "42" && ps[1..] == rest;
    assert ":" + ps[0].0 == ":tokenId";
    LongTokenFirst();
    assert Substitute("/v/:tokenId", ps) == Substitute("/v/42", rest);
    assert ":" + rest[0].0 == ":token" && PyStr(rest[0].1) == "7" && rest[1..] == [];
    NoColonNoMatch("/v/42", ":token", "7");
    assert Substitute("/v/42", rest) == Substitute("/v/42", []);
  }
}
