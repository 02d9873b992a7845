/** The ClientQuery value codec: `TS3Connection.unescape` and
    `TS3Connection.parse`. Field values on the wire escape space, pipe,
    newline, slash and backslash with a backslash sequence. */
module Codec {
  import opened Text

  /** A decoded record entity: Python's `dict` of key to value. */
  type Fields = map<String, String>

  /** Python `d.get(k, default)`. */
  function Get(d: Fields, k: String, default: String): String {
    if k in d then d[k] else default
  }

  /** `unescape`: five replace-all passes in the source's fixed order
      `\s`, `\p`, `\n`, `\/` and last `\\`. */
  function Unescape(s: String): String {
    var a := ReplaceAll(s, "\\s", " ");
    var b := ReplaceAll(a, "\\p", "|");
    var c := ReplaceAll(b, "\\n", "\n");
    var d := ReplaceAll(c, "\\/", "/");
    ReplaceAll(d, "\\\\", "\\")
  }

  /** Text before the first `=` of a token (Python `t.partition("=")[0]`). */
  function KeyOf(t: String): String { t[..Find(t, '=')] }

  /** Text after the first `=` of a token; it may itself contain `=`. */
  function RawValueOf(t: String): String
    requires '=' in t
  {
    t[Find(t, '=') + 1..]
  }

  /** Token `t` assigns key `k`. */
  predicate Binds(t: String, k: String) {
    '=' in t && KeyOf(t) == k
  }

  /** The dictionary built by the loop in `parse` over the tokens `ts`:
      every token with `=` binds its key to its unescaped value, a later
      token overwriting an earlier one, tokens without `=` being skipped. */
  function ParseTokens(ts: seq<String>): Fields
    decreases |ts|
  {
    if ts == [] then map[]
    else
      var t := ts[|ts| - 1];
      var r := ParseTokens(ts[..|ts| - 1]);
      if '=' in t then r[KeyOf(t) := Unescape(RawValueOf(t))] else r
  }

  /** Key `k` is present exactly when some token binds it. */
  lemma {:induction false} ParseTokensKeys(ts: seq<String>, k: String)
    ensures k in ParseTokens(ts) <==> exists i :: 0 <= i < |ts| && Binds(ts[i], k)
    decreases |ts|
  {
    if ts != [] {
      var init := ts[..|ts| - 1];
      ParseTokensKeys(init, k);
      assert forall i :: 0 <= i < |init| ==> init[i] == ts[i];
      if Binds(ts[|ts| - 1], k) {
        assert k in ParseTokens(ts);
      }
    }
  }

  /** The value of `k` comes from the last token that binds it. */
  lemma {:induction false} ParseTokensLast(ts: seq<String>, k: String, i: nat)
    requires i < |ts| && Binds(ts[i], k)
    requires forall j :: i < j < |ts| ==> !Binds(ts[j], k)
    ensures k in ParseTokens(ts) && ParseTokens(ts)[k] == Unescape(RawValueOf(ts[i]))
    decreases |ts|
  {
    var init := ts[..|ts| - 1];
    if i < |ts| - 1 {
      assert init[i] == ts[i];
      assert forall j :: i < j < |init| ==> init[j] == ts[j];
      ParseTokensLast(init, k, i);
      assert !Binds(ts[|ts| - 1], k);
    }
  }

  /** `parse`: split the stripped record on whitespace and keep the
      `key=value` tokens. */
  function Parse(raw: String): Fields {
    ParseTokens(Words(Strip(raw)))
  }

  // ---------------------------------------------------------------------
  // Properties of Unescape

  /** A value without any backslash decodes to itself. */
  lemma UnescapePlain(s: String)
    requires '\\' !in s
    ensures Unescape(s) == s
  {
    AbsentFirst(s, "\\s");
    ReplaceAllAbsent(s, "\\s", " ");
    AbsentFirst(s, "\\p");
    ReplaceAllAbsent(s, "\\p", "|");
    AbsentFirst(s, "\\n");
    ReplaceAllAbsent(s, "\\n", "\n");
    AbsentFirst(s, "\\/");
    ReplaceAllAbsent(s, "\\/", "/");
    AbsentFirst(s, "\\\\");
    ReplaceAllAbsent(s, "\\\\", "\\");
  }

  /** Decoding never lengthens a value and never empties a non-empty one. */
  lemma UnescapeLength(s: String)
    ensures |Unescape(s)| <= |s|
    ensures s != [] ==> Unescape(s) != []
  {
    var a := ReplaceAll(s, "\\s", " ");
    var b := ReplaceAll(a, "\\p", "|");
    var c := ReplaceAll(b, "\\n", "\n");
    var d := ReplaceAll(c, "\\/", "/");
    ReplaceAllLength(s, "\\s", " ");
    ReplaceAllLength(a, "\\p", "|");
    ReplaceAllLength(b, "\\n", "\n");
    ReplaceAllLength(c, "\\/", "/");
    ReplaceAllLength(d, "\\\\", "\\");
  }

  // ---------------------------------------------------------------------
  // The wire escaping, as an independent reference for Unescape

  /** The five characters the wire format escapes. */
  const Specials: set<char> := {' ', '|', '\n', '/', '\\'}

  /** The letter that follows the backslash in the escape of `c`. */
  function Code(c: char): char
    requires c in Specials
  {
    match c
    case ' ' => 's'
    case '|' => 'p'
    case '\n' => 'n'
    case '/' => '/'
    case _ => '\\'
  }

  /** Escape exactly the characters of `e`. */
  function EscapeSome(s: String, e: set<char>): String
    requires e <= Specials
  {
    if s == [] then []
    else (if s[0] in e then ['\\', Code(s[0])] else [s[0]]) + EscapeSome(s[1..], e)
  }

  /** The wire escaping of a value (the server's encoder). */
  function Escape(s: String): String {
    EscapeSome(s, Specials)
  }

  lemma {:induction false} ReplaceAllCons(x: char, t: String, p: String, r: String)
    requires |p| == 2 && x != p[0]
    ensures ReplaceAll([x] + t, p, r) == [x] + ReplaceAll(t, p, r)
  {
    var s := [x] + t;
    assert s[1..] == t;
    if |s| >= 2 {
      assert s[..2][0] == x;
    }
  }

  lemma {:induction false} EscapeIgnores(s: String, e: set<char>, c: char)
    requires e <= Specials && c !in s
    ensures EscapeSome(s, e) == EscapeSome(s, e - {c})
    decreases |s|
  {
    if s != [] {
      assert s[0] != c;
      EscapeIgnores(s[1..], e, c);
    }
  }

  lemma {:induction false} EscapeNone(s: String)
    ensures EscapeSome(s, {}) == s
    decreases |s|
  {
    if s != [] {
      EscapeNone(s[1..]);
    }
  }

  /** One pass of Unescape undoes the escaping of one character, provided no
      backslash of the original value could be mistaken for an escape. */
  lemma {:induction false} UndoOne(s: String, e: set<char>, c: char)
    requires e <= Specials - {'\\'} && c in e && '\\' !in s
    ensures ReplaceAll(EscapeSome(s, e), ['\\', Code(c)], [c]) == EscapeSome(s, e - {c})
    decreases |s|
  {
    var p := ['\\', Code(c)];
    if s != [] {
      var x := s[0];
      var rest := EscapeSome(s[1..], e);
      UndoOne(s[1..], e, c);
      if x in e {
        var t := ['\\', Code(x)] + rest;
        assert EscapeSome(s, e) == t;
        if x == c {
          assert t[..2] == p;
          assert t[2..] == rest;
        } else {
          assert Code(x) != Code(c);
          assert t[..2] != p;
          assert t[1..] == [Code(x)] + rest;
          ReplaceAllCons(Code(x), rest, p, [c]);
        }
      } else {
        assert x != '\\';
        ReplaceAllCons(x, rest, p, [c]);
      }
    }
  }

  /** Unescape inverts the wire escaping for every value that contains no
      backslash. */
  lemma RoundTripNoBackslash(s: String)
    requires '\\' !in s
    ensures Unescape(Escape(s)) == s
  {
    var e4 := {' ', '|', '\n', '/'};
    EscapeIgnores(s, Specials, '\\');
    assert Specials - {'\\'} == e4;
    UndoOne(s, e4, ' ');
    assert Code(' ') == 's';
    assert e4 - {' '} == {'|', '\n', '/'};
    UndoOne(s, {'|', '\n', '/'}, '|');
    assert Code('|') == 'p';
    assert {'|', '\n', '/'} - {'|'} == {'\n', '/'};
    UndoOne(s, {'\n', '/'}, '\n');
    assert Code('\n') == 'n';
    assert {'\n', '/'} - {'\n'} == {'/'};
    UndoOne(s, {'/'}, '/');
    assert Code('/') == '/';
    assert {'/'} - {'/'} == {};
    EscapeNone(s);
    AbsentFirst(s, "\\\\");
    ReplaceAllAbsent(s, "\\\\", "\\");
  }

  /** The chained passes are not the inverse of the escaping in general: a
      backslash followed by `s` comes back as a backslash and a space. */
  lemma RoundTripFails()
    ensures Escape("\\s") == "\\\\s"
    ensures Unescape(Escape("\\s")) == "\\ "
  {
    assert Code('\\') == '\\';
    var w := "\\\\s";
    assert w[..2][1] == '\\' && "\\s"[1] == 's';
    assert w[1..] == "\\s";
    assert "\\s"[..2] == "\\s" && "\\s"[2..] == [];
    assert ReplaceAll(w, "\\s", " ") == "\\ ";
    var t := "\\ ";
    assert t[..2] != "\\p" && t[..2] != "\\n" && t[..2] != "\\/" && t[..2] != "\\\\";
    assert t[1..] == " ";
  }

  // ---------------------------------------------------------------------
  // Properties of Parse

  /** A key is present in `parse`'s result exactly when some
      whitespace-separated token has it before its first `=`. */
  lemma ParseBindings(raw: String, k: String)
    ensures k in Parse(raw) <==> exists i :: 0 <= i < |Words(raw)| && Binds(Words(raw)[i], k)
  {
    WordsStrip(raw);
    ParseTokensKeys(Words(raw), k);
  }

  /** The value of a key is the unescaped text after the first `=` of the
      last token that binds it. */
  lemma ParseLastWins(raw: String, k: String, i: nat)
    requires i < |Words(raw)| && Binds(Words(raw)[i], k)
    requires forall j :: i < j < |Words(raw)| ==> !Binds(Words(raw)[j], k)
    ensures k in Parse(raw) && Parse(raw)[k] == Unescape(RawValueOf(Words(raw)[i]))
  {
    WordsStrip(raw);
    ParseTokensLast(Words(raw), k, i);
  }

  lemma UnescapeSample()
    ensures Unescape("a\\sb") == "a b"
  {
    var v := "a\\sb";
    assert v[..2] != "\\s" && v[1..] == "\\sb";
    assert "\\sb"[..2] == "\\s" && "\\sb"[2..] == "b";
    assert ReplaceAll("b", "\\s", " ") == "b";
    assert ReplaceAll(v, "\\s", " ") == "a b";
    UnescapePlain("a b");
  }

  /** Parsing `k=a\sb` decodes the value to `a b`. */
  lemma ParseEscapedSpace()
    ensures Parse("k=a\\sb") == map["k" := "a b"]
  {
    var w := "k=a\\sb";
    assert NoSpace(w);
    assert Find(w, '=') == 1;
    assert KeyOf(w) == "k";
    assert RawValueOf(w) == "a\\sb";
    ParseOneToken(w);
    UnescapeSample();
  }

  /** A record made of one token. */
  lemma ParseOneToken(w: String)
    requires w != [] && NoSpace(w) && '=' in w
    ensures Parse(w) == map[KeyOf(w) := Unescape(RawValueOf(w))]
  {
    StripNoOp(w);
    WordsOfWord(w);
    assert Parse(w) == ParseTokens([w]);
    assert [w][..0] == [] && [w][0] == w;
    assert ParseTokens([]) == map[];
  }
}
