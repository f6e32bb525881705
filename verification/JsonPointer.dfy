/** JSON pointers (RFC 6901): how reference tokens are escaped and joined, and how they are read back. */
module JsonPointer {

  /** Every `c` of `s` replaced by `text`. */
  function Replace(s: string, c: char, text: string): string {
    if s == "" then "" else (if s[0] == c then text else [s[0]]) + Replace(s[1..], c, text)
  }

  /** First every ~ becomes ~0, then every / becomes ~1. */
  function Escape(token: string): string {
    Replace(Replace(token, '~', "~0"), '/', "~1")
  }

  function Pointer(path: seq<string>): string {
    if path == [] then "" else Pointer(path[..|path| - 1]) + "/" + Escape(path[|path| - 1])
  }

  // ---- reading a pointer, as section 4 says ------------------------------------------------------------

  /** Every pair `~d` of `s` replaced by `c`. */
  function Unpair(s: string, d: char, c: char): string {
    if s == "" then ""
    else if |s| >= 2 && s[0] == '~' && s[1] == d then [c] + Unpair(s[2..], d, c)
    else [s[0]] + Unpair(s[1..], d, c)
  }

  /** First every ~1 becomes /, then every ~0 becomes ~. */
  function Unescape(token: string): string {
    Unpair(Unpair(token, '1', '/'), '0', '~')
  }

  /** Where the last reference token of a pointer starts. */
  function LastSlash(p: string): int
    ensures -1 <= LastSlash(p) < |p|
  {
    if p == "" then -1 else if p[|p| - 1] == '/' then |p| - 1 else LastSlash(p[..|p| - 1])
  }

  /** The tokens of a pointer. */
  function Tokens(p: string): seq<string> {
    var at := LastSlash(p);
    if at < 0 then [] else Tokens(p[..at]) + [Unescape(p[at + 1..])]
  }

  // ---- the round trip ----------------------------------------------------------------------------------

  lemma {:induction false} ReplacedIsGone(s: string, c: char, text: string)
    requires c !in text
    ensures c !in Replace(s, c, text)
  {
    if s != "" {
      ReplacedIsGone(s[1..], c, text);
    }
  }

  lemma ReplaceHead(x: char, s: string, c: char, text: string)
    ensures Replace([x] + s, c, text) == (if x == c then text else [x]) + Replace(s, c, text)
  {
    assert ([x] + s)[1..] == s;
  }

  lemma UnpairPair(s: string, d: char, c: char)
    ensures Unpair(['~', d] + s, d, c) == [c] + Unpair(s, d, c)
  {
    assert (['~', d] + s)[2..] == s;
  }

  lemma UnpairHead(x: char, s: string, d: char, c: char)
    requires x != '~' || s == "" || s[0] != d
    ensures Unpair([x] + s, d, c) == [x] + Unpair(s, d, c)
  {
    assert ([x] + s)[1..] == s;
  }

  function EscapeChar(c: char): string {
    if c == '~' then "~0" else if c == '/' then "~1" else [c]
  }

  /** After the first pass every ~ is followed by 0, and the second pass leaves those pairs alone. */
  lemma EscapeHead(x: char, s: string)
    ensures Escape([x] + s) == EscapeChar(x) + Escape(s)
  {
    var rest := Replace(s, '~', "~0");
    ReplaceHead(x, s, '~', "~0");
    if x == '~' {
      assert "~0" + rest == ['~'] + (['0'] + rest);
      ReplaceHead('~', ['0'] + rest, '/', "~1");
      ReplaceHead('0', rest, '/', "~1");
      hide Replace;
      assert ['~'] + (['0'] + Replace(rest, '/', "~1")) == "~0" + Replace(rest, '/', "~1");
    } else {
      ReplaceHead(x, rest, '/', "~1");
    }
  }

  lemma {:induction false} SlashBack(token: string)
    ensures Unpair(Escape(token), '1', '/') == Replace(token, '~', "~0")
  {
    if token == "" {
    } else {
      var x, s := token[0], token[1..];
      var rest := Escape(s);
      assert token == [x] + s;
      EscapeHead(x, s);
      SlashBack(s);
      ReplaceHead(x, s, '~', "~0");
      hide Replace;
      hide Escape;
      hide Unpair;
      if x == '~' {
        assert "~0" + rest == ['~'] + (['0'] + rest);
        UnpairHead('~', ['0'] + rest, '1', '/');
        UnpairHead('0', rest, '1', '/');
      } else if x == '/' {
        UnpairPair(rest, '1', '/');
      } else {
        UnpairHead(x, rest, '1', '/');
      }
    }
  }

  lemma {:induction false} TildeBack(token: string)
    ensures Unpair(Replace(token, '~', "~0"), '0', '~') == token
  {
    if token == "" {
    } else {
      var x, s := token[0], token[1..];
      assert token == [x] + s;
      TildeBack(s);
      ReplaceHead(x, s, '~', "~0");
      var rest := Replace(s, '~', "~0");
      hide Replace;
      hide Unpair;
      if x == '~' {
        UnpairPair(rest, '0', '~');
      } else {
        UnpairHead(x, rest, '0', '~');
      }
    }
  }

  lemma EscapeRoundTrip(token: string)
    ensures Unescape(Escape(token)) == token && '/' !in Escape(token)
  {
    SlashBack(token);
    TildeBack(token);
    ReplacedIsGone(Replace(token, '~', "~0"), '/', "~1");
  }

  lemma {:induction false} LastSlashAt(front: string, token: string)
    requires '/' !in token
    ensures LastSlash(front + "/" + token) == |front|
  {
    var p := front + "/" + token;
    if token != "" {
      assert p[..|p| - 1] == front + "/" + token[..|token| - 1];
      LastSlashAt(front, token[..|token| - 1]);
    }
  }

  /** A pointer names one path: reading it back gives its tokens. */
  lemma {:induction false} PointerRoundTrip(path: seq<string>)
    ensures Tokens(Pointer(path)) == path
  {
    if path != [] {
      var front, last := path[..|path| - 1], path[|path| - 1];
      PointerRoundTrip(front);
      EscapeRoundTrip(last);
      LastSlashAt(Pointer(front), Escape(last));
      var p := Pointer(path);
      assert p == Pointer(front) + "/" + Escape(last);
      assert p[..|Pointer(front)|] == Pointer(front);
      assert p[|Pointer(front)| + 1..] == Escape(last);
    }
  }

  lemma PointersAreInjective(a: seq<string>, b: seq<string>)
    ensures Pointer(a) == Pointer(b) <==> a == b
  {
    PointerRoundTrip(a);
    PointerRoundTrip(b);
  }

  lemma PointerAppend(path: seq<string>, token: string)
    ensures Pointer(path + [token]) == Pointer(path) + "/" + Escape(token)
  {
    assert (path + [token])[..|path|] == path;
  }

  lemma Regroup(a: string, b: string, c: string, d: string)
    ensures ((a + b) + c) + d == a + ((b + c) + d)
  {
  }

  lemma {:induction false} PointerConcat(a: seq<string>, b: seq<string>)
    ensures Pointer(a + b) == Pointer(a) + Pointer(b)
  {
    if b == [] {
      assert a + b == a;
      assert Pointer(b) == "";
    } else {
      hide Pointer;
      hide Escape;
      var front, last := b[..|b| - 1], b[|b| - 1];
      PointerConcat(a, front);
      assert a + b == (a + front) + [last];
      assert b == front + [last];
      PointerAppend(a + front, last);
      PointerAppend(front, last);
      Regroup(Pointer(a), Pointer(front), "/", Escape(last));
    }
  }

  lemma PrefixContinues(a: seq<string>, b: seq<string>)
    requires a <= b
    ensures Pointer(b) == Pointer(a) + Pointer(b[|a|..])
  {
    hide Pointer;
    PointerConcat(a, b[|a|..]);
    assert a + b[|a|..] == b;
  }

  lemma ContinuedIsPrefix(a: seq<string>, b: seq<string>, rest: seq<string>)
    requires Pointer(b) == Pointer(a) + Pointer(rest)
    ensures a <= b
  {
    hide Pointer;
    PointerConcat(a, rest);
    PointersAreInjective(b, a + rest);
  }

  /** One pointer continues another with whole tokens exactly when its path continues the other's. */
  lemma SegmentPrefixIff(a: seq<string>, b: seq<string>)
    ensures a <= b <==> exists rest :: Pointer(b) == Pointer(a) + Pointer(rest)
  {
    hide Pointer;
    if a <= b {
      PrefixContinues(a, b);
    } else if rest :| Pointer(b) == Pointer(a) + Pointer(rest) {
      ContinuedIsPrefix(a, b, rest);
    }
  }
}
