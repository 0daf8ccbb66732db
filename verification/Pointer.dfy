/**
  JSON pointer tokens (section 4 of RFC 6901): escaping a chat key for a patch path, splitting a path
  into its tokens, and undoing the escape in the order the RFC prescribes.
 */
module Pointer {
  import opened Prelude

  /** Replace every occurrence of one character by a string. */
  function ReplaceChar(s: string, c: char, put: string): string {
    if s == "" then ""
    else (if s[0] == c then put else [s[0]]) + ReplaceChar(s[1..], c, put)
  }

  /** Replace every occurrence of a two-character pattern by a character, from left to right. */
  function ReplacePair(s: string, a: char, b: char, put: char): string {
    if s == "" then ""
    else if |s| >= 2 && s[0] == a && s[1] == b then [put] + ReplacePair(s[2..], a, b, put)
    else [s[0]] + ReplacePair(s[1..], a, b, put)
  }

  /** The source's `pointer`: "~" becomes "~0", then "/" becomes "~1". */
  function Escape(key: string): string {
    ReplaceChar(ReplaceChar(key, '~', "~0"), '/', "~1")
  }

  /** The order of section 4 of RFC 6901: first "~1" becomes "/", then "~0" becomes "~". */
  function Unescape(token: string): string {
    ReplacePair(ReplacePair(token, '~', '1', '/'), '~', '0', '~')
  }

  lemma {:induction false} EscapeFirst(key: string)
    requires key != ""
    ensures Escape(key) == (if key[0] == '~' then "~0" else if key[0] == '/' then "~1" else [key[0]]) + Escape(key[1..])
  {
    var head := if key[0] == '~' then "~0" else [key[0]];
    var tail := ReplaceChar(key[1..], '~', "~0");
    assert ReplaceChar(key, '~', "~0") == head + tail;
    ReplaceConcat(head, tail, '/', "~1");
    if key[0] == '~' {
      assert head == ['~'] + ['0'];
      ReplaceConcat(['~'], ['0'], '/', "~1");
      assert ReplaceChar(['~'], '/', "~1") == ['~'] && ReplaceChar(['0'], '/', "~1") == ['0'];
    } else {
      assert head[1..] == "";
      assert ReplaceChar(head, '/', "~1") == if key[0] == '/' then "~1" else head;
    }
  }

  lemma {:induction false} ReplaceConcat(a: string, b: string, c: char, put: string)
    ensures ReplaceChar(a + b, c, put) == ReplaceChar(a, c, put) + ReplaceChar(b, c, put)
  {
    if a == "" {
      assert a + b == b;
    } else {
      assert (a + b)[1..] == a[1..] + b;
      ReplaceConcat(a[1..], b, c, put);
    }
  }

  /** The first pass of Unescape brings back the slashes and nothing else. */
  lemma {:induction false} UnescapeSlashes(key: string)
    ensures ReplacePair(Escape(key), '~', '1', '/') == ReplaceChar(key, '~', "~0")
  {
    if key != "" {
      EscapeFirst(key);
      UnescapeSlashes(key[1..]);
      var rest := Escape(key[1..]);
      var e := Escape(key);
      if key[0] == '~' {
        assert e == "~0" + rest && e[1..] == "0" + rest && e[1..][1..] == rest;
        assert ReplacePair(e, '~', '1', '/') == ['~'] + ReplacePair(e[1..], '~', '1', '/');
        assert ReplacePair(e[1..], '~', '1', '/') == ['0'] + ReplacePair(rest, '~', '1', '/');
      } else if key[0] == '/' {
        assert e == "~1" + rest && e[2..] == rest;
      } else {
        assert e == [key[0]] + rest && e[1..] == rest;
      }
    }
  }

  /** The second pass brings back the tildes. */
  lemma {:induction false} UnescapeTildes(key: string)
    ensures ReplacePair(ReplaceChar(key, '~', "~0"), '~', '0', '~') == key
  {
    if key != "" {
      UnescapeTildes(key[1..]);
      var rest := ReplaceChar(key[1..], '~', "~0");
      var e := ReplaceChar(key, '~', "~0");
      if key[0] == '~' {
        assert e == "~0" + rest && e[2..] == rest;
      } else {
        assert e == [key[0]] + rest && e[1..] == rest;
      }
      assert [key[0]] + key[1..] == key;
    }
  }

  /** Escaping is undone by the order of the RFC, for every key. */
  lemma RoundTrip(key: string)
    ensures Unescape(Escape(key)) == key
  {
    UnescapeSlashes(key);
    UnescapeTildes(key);
  }

  /** The order matters: undoing the tildes first turns the key "~1" into "/". */
  lemma OtherOrderLosesKeys()
    ensures ReplacePair(ReplacePair(Escape("~1"), '~', '0', '~'), '~', '1', '/') == "/"
  {
    EscapeFirst("~1");
    EscapeFirst("1");
    assert "~1"[1..] == "1" && "1"[1..] == "";
    assert Escape("~1") == "~01";
    assert "~01"[2..] == "1";
    assert ReplacePair("1", '~', '0', '~') == "1" + ReplacePair("1"[1..], '~', '0', '~');
    assert ReplacePair("~01", '~', '0', '~') == "~1";
    assert "~1"[2..] == "";
  }

  /** Different keys have different escapes. */
  lemma EscapeInjective(a: string, b: string)
    requires Escape(a) == Escape(b)
    ensures a == b
  {
    RoundTrip(a);
    RoundTrip(b);
  }

  /** An escaped key has no slash, so it is one path token. */
  lemma {:induction false} EscapeHasNoSlash(key: string)
    ensures '/' !in Escape(key)
  {
    if key != "" {
      EscapeFirst(key);
      EscapeHasNoSlash(key[1..]);
    }
  }

  // ----- paths ----------------------------------------------------------------------------------

  /** The decoded tokens of a path that starts with a slash. */
  function Tokens(path: string): seq<string> {
    if path == "" || path[0] != '/' then []
    else UnescapeAll(Split(path[1..], '/'))
  }

  function UnescapeAll(tokens: seq<string>): seq<string> {
    if tokens == [] then [] else [Unescape(tokens[0])] + UnescapeAll(tokens[1..])
  }

  /** The path whose tokens are the given ones. */
  function Path(tokens: seq<string>): string {
    if tokens == [] then "" else "/" + Escape(tokens[0]) + Path(tokens[1..])
  }

  /** Building a path and splitting it again gives the tokens back, so no two token lists share a path. */
  lemma {:induction false} PathRoundTrip(tokens: seq<string>)
    requires tokens != []
    ensures Path(tokens) != "" && Path(tokens)[0] == '/'
    ensures Tokens(Path(tokens)) == tokens
  {
    hide Escape, Unescape;
    var head := Escape(tokens[0]);
    EscapeHasNoSlash(tokens[0]);
    RoundTrip(tokens[0]);
    if |tokens| == 1 {
      assert Path(tokens[1..]) == "";
      assert Path(tokens)[1..] == head;
      SplitLast(head, '/');
      assert UnescapeAll([head]) == [tokens[0]] + UnescapeAll([head][1..]);
      assert tokens == [tokens[0]];
    } else {
      PathRoundTrip(tokens[1..]);
      var rest := Path(tokens[1..])[1..];
      assert Path(tokens[1..]) == "/" + rest;
      assert Path(tokens)[1..] == head + "/" + rest;
      SplitToken(head, rest, '/');
      var all := [head] + Split(rest, '/');
      assert all[1..] == Split(rest, '/');
      assert tokens == [tokens[0]] + tokens[1..];
    }
  }
}
