/** Python string primitives that the ClientQuery core relies on, written out
    over `seq<char>`: `str.isspace`, `strip`, `split()` (on whitespace),
    `split(sep)`, `sep.join`, `splitlines`, `startswith`, `endswith`, `in`
    (substring) and `replace`. */
module Text {

  type String = seq<char>

  /** The characters for which Python's `str.isspace()` is true. */
  predicate IsSpace(c: char) {
    var n := c as int;
    (0x09 <= n <= 0x0D) || (0x1C <= n <= 0x20) || n == 0x85 || n == 0xA0 ||
    n == 0x1680 || (0x2000 <= n <= 0x200A) || n == 0x2028 || n == 0x2029 ||
    n == 0x202F || n == 0x205F || n == 0x3000
  }

  /** The line boundaries recognised by Python's `str.splitlines()`
      (`\r\n` is handled as one boundary by `SplitLines`). */
  predicate IsLineBreak(c: char) {
    var n := c as int;
    (0x0A <= n <= 0x0D) || (0x1C <= n <= 0x1E) || n == 0x85 || n == 0x2028 || n == 0x2029
  }

  predicate AllSpace(s: String) {
    forall k :: 0 <= k < |s| ==> IsSpace(s[k])
  }

  predicate NoSpace(s: String) {
    forall k :: 0 <= k < |s| ==> !IsSpace(s[k])
  }

  /** Index of the first occurrence of `c`, or `|s|` when there is none. */
  function Find(s: String, c: char): (i: nat)
    ensures i <= |s|
    ensures forall k :: 0 <= k < i ==> s[k] != c
    ensures i < |s| ==> s[i] == c
    ensures i == |s| <==> c !in s
  {
    if s == [] then 0
    else if s[0] == c then 0
    else 1 + Find(s[1..], c)
  }

  /** Number of leading whitespace characters. */
  function LeadLen(s: String): (n: nat)
    ensures n <= |s|
    ensures AllSpace(s[..n])
    ensures n < |s| ==> !IsSpace(s[n])
  {
    if s == [] || !IsSpace(s[0]) then 0
    else
      var m := LeadLen(s[1..]);
      assert s[..m + 1] == [s[0]] + s[1..][..m];
      1 + m
  }

  /** Length of `s` once its trailing whitespace is removed. */
  function TrailStart(s: String): (n: nat)
    ensures n <= |s|
    ensures AllSpace(s[n..])
    ensures n > 0 ==> !IsSpace(s[n - 1])
  {
    if s == [] || !IsSpace(s[|s| - 1]) then |s|
    else
      var m := TrailStart(s[..|s| - 1]);
      assert s[m..] == s[..|s| - 1][m..] + [s[|s| - 1]];
      m
  }

  /** Python `s.lstrip()`. */
  function TrimLeft(s: String): String { s[LeadLen(s)..] }

  /** Python `s.rstrip()`. */
  function TrimRight(s: String): String { s[..TrailStart(s)] }

  /** Python `s.strip()`. */
  function Strip(s: String): String { TrimRight(TrimLeft(s)) }

  /** Length of the leading run of non-whitespace characters. */
  function WordLen(s: String): (n: nat)
    ensures n <= |s|
    ensures NoSpace(s[..n])
    ensures n < |s| ==> IsSpace(s[n])
  {
    if s == [] || IsSpace(s[0]) then 0
    else
      var m := WordLen(s[1..]);
      assert s[..m + 1] == [s[0]] + s[1..][..m];
      1 + m
  }

  /** Python `s.split()`: the maximal runs of non-whitespace characters. */
  function Words(s: String): (ws: seq<String>)
    ensures forall i :: 0 <= i < |ws| ==> ws[i] != [] && NoSpace(ws[i])
    decreases |s|
  {
    var t := TrimLeft(s);
    if t == [] then []
    else
      var n := WordLen(t);
      [t[..n]] + Words(t[n..])
  }

  /** Python `s.split(sep)` for a one-character separator: never empty, and
      empty pieces are kept. */
  function Split(s: String, sep: char): (ps: seq<String>)
    ensures |ps| >= 1
    ensures forall i :: 0 <= i < |ps| ==> sep !in ps[i]
    decreases |s|
  {
    var i := Find(s, sep);
    if i == |s| then [s]
    else [s[..i]] + Split(s[i + 1..], sep)
  }

  /** Python `sep.join(parts)`. */
  function Join(parts: seq<String>, sep: String): String {
    if parts == [] then []
    else if |parts| == 1 then parts[0]
    else parts[0] + sep + Join(parts[1..], sep)
  }

  /** Python `s.splitlines()`: no trailing empty line, `\r\n` is one break. */
  function SplitLines(s: String): (ls: seq<String>)
    ensures forall i :: 0 <= i < |ls| ==> forall k :: 0 <= k < |ls[i]| ==> !IsLineBreak(ls[i][k])
    decreases |s|
  {
    if s == [] then []
    else
      var i := LineLen(s);
      if i == |s| then [s]
      else
        var next := if s[i] == '\r' && i + 1 < |s| && s[i + 1] == '\n' then i + 2 else i + 1;
        [s[..i]] + SplitLines(s[next..])
  }

  /** Length of the leading run of characters that are not line breaks. */
  function LineLen(s: String): (n: nat)
    ensures n <= |s|
    ensures forall k :: 0 <= k < n ==> !IsLineBreak(s[k])
    ensures n < |s| ==> IsLineBreak(s[n])
  {
    if s == [] || IsLineBreak(s[0]) then 0
    else 1 + LineLen(s[1..])
  }

  predicate StartsWith(s: String, p: String) {
    |p| <= |s| && s[..|p|] == p
  }

  predicate EndsWith(s: String, p: String) {
    |p| <= |s| && s[|s| - |p|..] == p
  }

  /** Python `p in s` for strings. */
  predicate Contains(s: String, p: String)
    decreases |s|
  {
    StartsWith(s, p) || (s != [] && Contains(s[1..], p))
  }

  /** Python `s.replace(p, r)`: every non-overlapping occurrence of `p`,
      scanned from the left, is replaced by `r`. */
  function ReplaceAll(s: String, p: String, r: String): String
    requires p != []
    decreases |s|
  {
    if |s| < |p| then s
    else if s[..|p|] == p then r + ReplaceAll(s[|p|..], p, r)
    else [s[0]] + ReplaceAll(s[1..], p, r)
  }

  // ---------------------------------------------------------------------
  // Properties

  /** `Contains` holds exactly when `p` occurs at some offset of `s`. */
  lemma {:induction false} ContainsAt(s: String, p: String, i: nat)
    requires i + |p| <= |s| && s[i..i + |p|] == p
    ensures Contains(s, p)
    decreases i
  {
    if i > 0 {
      assert s[1..][i - 1..i - 1 + |p|] == s[i..i + |p|];
      ContainsAt(s[1..], p, i - 1);
    }
  }

  lemma {:induction false} ContainsWitness(s: String, p: String) returns (i: nat)
    requires Contains(s, p)
    ensures i + |p| <= |s| && s[i..i + |p|] == p
    decreases |s|
  {
    if StartsWith(s, p) {
      i := 0;
    } else {
      var j := ContainsWitness(s[1..], p);
      assert s[1..][j..j + |p|] == s[j + 1..j + 1 + |p|];
      i := j + 1;
    }
  }

  /** `Strip` removes exactly the surrounding whitespace: the input is the
      result with whitespace on each side, and the result neither starts nor
      ends with whitespace. */
  lemma StripShape(s: String) returns (pre: String, post: String)
    ensures s == pre + Strip(s) + post
    ensures AllSpace(pre) && AllSpace(post)
    ensures Strip(s) == [] || (!IsSpace(Strip(s)[0]) && !IsSpace(Strip(s)[|Strip(s)| - 1]))
  {
    pre, post := StripSplit(s);
    StripEnds(s);
  }

  lemma StripSplit(s: String) returns (pre: String, post: String)
    ensures s == pre + Strip(s) + post
    ensures AllSpace(pre) && AllSpace(post)
  {
    var a := LeadLen(s);
    var t := s[a..];
    var b := TrailStart(t);
    pre, post := s[..a], t[b..];
    Split3(s, a, b);
  }

  lemma StripEnds(s: String)
    ensures Strip(s) == [] || (!IsSpace(Strip(s)[0]) && !IsSpace(Strip(s)[|Strip(s)| - 1]))
  {
    var a := LeadLen(s);
    var t := s[a..];
    var b := TrailStart(t);
    if b > 0 {
      assert t[..b][0] == s[a];
      assert t[..b][b - 1] == t[b - 1];
    }
  }

  lemma Split3<T>(s: seq<T>, a: nat, b: nat)
    requires a <= |s| && b <= |s| - a
    ensures s == s[..a] + s[a..][..b] + s[a..][b..]
  {
    assert s[a..][..b] + s[a..][b..] == s[a..];
    assert s[..a] + s[a..] == s;
  }

  /** A string without surrounding whitespace is its own `Strip`. */
  lemma StripNoOp(s: String)
    requires s == [] || (!IsSpace(s[0]) && !IsSpace(s[|s| - 1]))
    ensures Strip(s) == s
  {
    assert LeadLen(s) == 0;
    assert s[0..] == s;
    assert TrailStart(s) == |s|;
  }

  /** A run of whitespace strips to the empty string. */
  lemma StripAllSpace(s: String)
    requires AllSpace(s)
    ensures Strip(s) == []
  {
    assert LeadLen(s) == |s|;
  }

  /** Leading whitespace is skipped by `TrimLeft`. */
  lemma {:induction false} TrimLeftSkips(a: String, b: String)
    requires AllSpace(a)
    ensures TrimLeft(a + b) == TrimLeft(b)
    decreases |a|
  {
    if a != [] {
      var s := a + b;
      assert s[1..] == a[1..] + b;
      TrimLeftSkips(a[1..], b);
      assert IsSpace(s[0]);
      assert LeadLen(s) == 1 + LeadLen(s[1..]);
      assert s[LeadLen(s)..] == s[1..][LeadLen(s[1..])..];
    } else {
      assert a + b == b;
    }
  }

  lemma TrimLeftWord(s: String)
    requires s == [] || !IsSpace(s[0])
    ensures TrimLeft(s) == s
  {
    assert LeadLen(s) == 0;
    assert s[0..] == s;
  }

  /** A single word splits to itself. */
  lemma WordsOfWord(s: String)
    requires s != [] && NoSpace(s)
    ensures Words(s) == [s]
  {
    TrimLeftWord(s);
    var n := WordLen(s);
    assert n == |s|;
    assert s[..n] == s;
    assert s[n..] == [];
    assert Words([]) == [] by { TrimLeftWord([]); }
  }

  /** Leading whitespace does not change `Words`. */
  lemma WordsSkipsSpace(a: String, b: String)
    requires AllSpace(a)
    ensures Words(a + b) == Words(b)
  {
    TrimLeftSkips(a, b);
  }

  /** `Words` of `a`, whitespace, `b` is `Words(a)` followed by `Words(b)`:
      the whitespace character is a token boundary. */
  lemma {:induction false} WordsConcat(a: String, c: char, b: String)
    requires IsSpace(c)
    ensures Words(a + [c] + b) == Words(a) + Words(b)
    decreases |a|
  {
    if a == [] {
      assert a + [c] + b == [c] + b;
      WordsSkipsSpace([c], b);
      WordsEmpty();
    } else if IsSpace(a[0]) {
      WordsConcat(a[1..], c, b);
      WordsConcatSpace(a, c, b);
    } else {
      var n := WordLen(a);
      WordsConcatWord(a, c, b);
      var x, r := a[..n], a[n..];
      WordsConcat(r, c, b);
      var wr, wb := Words(r), Words(b);
      SeqAssoc([x], wr, wb);
    }
  }

  lemma SeqAssoc<T>(x: seq<T>, y: seq<T>, z: seq<T>)
    ensures x + (y + z) == (x + y) + z
  {
  }

  lemma WordsEmpty()
    ensures Words([]) == []
  {
    TrimLeftWord([]);
  }

  lemma {:induction false} WordsConcatSpace(a: String, c: char, b: String)
    requires IsSpace(c) && a != [] && IsSpace(a[0])
    requires Words(a[1..] + [c] + b) == Words(a[1..]) + Words(b)
    ensures Words(a + [c] + b) == Words(a) + Words(b)
  {
    var s := a + [c] + b;
    assert s[0] == a[0] && s[1..] == a[1..] + [c] + b;
    WordsDropSpace(s);
    WordsDropSpace(a);
  }

  /** A leading whitespace character does not change `Words`. */
  lemma WordsDropSpace(s: String)
    requires s != [] && IsSpace(s[0])
    ensures Words(s) == Words(s[1..])
  {
    assert TrimLeft(s) == TrimLeft(s[1..]);
  }

  lemma WordsConcatWord(a: String, c: char, b: String)
    requires IsSpace(c) && a != [] && !IsSpace(a[0])
    ensures Words(a + [c] + b) == [a[..WordLen(a)]] + Words(a[WordLen(a)..] + [c] + b)
    ensures Words(a) == [a[..WordLen(a)]] + Words(a[WordLen(a)..])
  {
    WordsFirst(a);
    ConcatWordSlices(a, c, b);
    WordsFirst(a + [c] + b);
  }

  /** The first word of `a + [c] + b`, for a whitespace `c`, is that of `a`. */
  lemma ConcatWordSlices(a: String, c: char, b: String)
    requires IsSpace(c) && a != []
    ensures var s, n := a + [c] + b, WordLen(a);
            s != [] && s[0] == a[0] && WordLen(s) == n && s[..n] == a[..n] && s[n..] == a[n..] + [c] + b
  {
    var s := a + [c] + b;
    WordLenPrefix(a, [c] + b);
    assert s == a + ([c] + b);
  }

  /** A string that starts with a word splits into that word and the rest. */
  lemma WordsFirst(s: String)
    requires s != [] && !IsSpace(s[0])
    ensures Words(s) == [s[..WordLen(s)]] + Words(s[WordLen(s)..])
  {
    TrimLeftWord(s);
  }

  /** Trailing whitespace does not change `Words`. */
  lemma WordsTrailingSpace(m: String, post: String)
    requires AllSpace(post)
    ensures Words(m + post) == Words(m)
  {
    if post != [] {
      assert m + post == m + [post[0]] + post[1..];
      WordsConcat(m, post[0], post[1..]);
      assert post[1..] + [] == post[1..];
      WordsSkipsSpace(post[1..], []);
      WordsEmpty();
    } else {
      assert m + post == m;
    }
  }

  /** `s.strip().split()` is `s.split()`. */
  lemma WordsStrip(s: String)
    ensures Words(Strip(s)) == Words(s)
  {
    var pre, post := StripShape(s);
    var m := Strip(s);
    assert s == pre + (m + post);
    WordsSkipsSpace(pre, m + post);
    WordsTrailingSpace(m, post);
  }

  lemma {:induction false} WordLenPrefix(a: String, b: String)
    requires b != [] && IsSpace(b[0])
    ensures WordLen(a + b) == WordLen(a)
    decreases |a|
  {
    if a == [] {
      assert (a + b)[0] == b[0];
    } else if !IsSpace(a[0]) {
      assert (a + b)[1..] == a[1..] + b;
      WordLenPrefix(a[1..], b);
    }
  }

  /** `Join` undoes `Split`. */
  lemma {:induction false} JoinSplit(s: String, sep: char)
    ensures Join(Split(s, sep), [sep]) == s
    decreases |s|
  {
    var i := Find(s, sep);
    if i < |s| {
      var rest := s[i + 1..];
      var ps := Split(rest, sep);
      JoinSplit(rest, sep);
      assert Split(s, sep) == [s[..i]] + ps;
      assert ([s[..i]] + ps)[1..] == ps;
      assert Join([s[..i]] + ps, [sep]) == s[..i] + [sep] + Join(ps, [sep]);
      assert s == s[..i] + [sep] + rest;
    }
  }

  /** `Split` undoes `Join` when no part contains the separator. */
  lemma {:induction false} SplitJoin(parts: seq<String>, sep: char)
    requires |parts| >= 1
    requires forall i :: 0 <= i < |parts| ==> sep !in parts[i]
    ensures Split(Join(parts, [sep]), sep) == parts
    decreases |parts|
  {
    if |parts| > 1 {
      var s := Join(parts, [sep]);
      var rest := Join(parts[1..], [sep]);
      assert s == parts[0] + [sep] + rest;
      FindAfter(parts[0], sep, rest);
      assert s[..|parts[0]|] == parts[0];
      assert s[|parts[0]| + 1..] == rest;
      SplitJoin(parts[1..], sep);
    }
  }

  lemma FindAfter(a: String, c: char, b: String)
    requires c !in a
    ensures Find(a + [c] + b, c) == |a|
  {
    var s := a + [c] + b;
    assert s[|a|] == c;
    assert forall k :: 0 <= k < |a| ==> s[k] == a[k];
  }

  /** `ReplaceAll` leaves a string in which `p` does not occur unchanged. */
  lemma {:induction false} ReplaceAllAbsent(s: String, p: String, r: String)
    requires p != [] && !Contains(s, p)
    ensures ReplaceAll(s, p, r) == s
    decreases |s|
  {
    if |s| >= |p| {
      assert !StartsWith(s, p);
      ReplaceAllAbsent(s[1..], p, r);
    }
  }

  /** A pattern whose first character is missing from `s` does not occur
      in `s`. */
  lemma {:induction false} AbsentFirst(s: String, p: String)
    requires p != [] && p[0] !in s
    ensures !Contains(s, p)
    decreases |s|
  {
    if s != [] {
      if |p| <= |s| {
        assert s[..|p|][0] == s[0];
      }
      AbsentFirst(s[1..], p);
    }
  }

  /** Replacing a two-character pattern by one character never lengthens
      the string and never empties a non-empty one. */
  lemma {:induction false} ReplaceAllLength(s: String, p: String, r: String)
    requires |p| == 2 && |r| == 1
    ensures |ReplaceAll(s, p, r)| <= |s|
    ensures 2 * |ReplaceAll(s, p, r)| >= |s|
    decreases |s|
  {
    if |s| >= |p| {
      if s[..|p|] == p {
        ReplaceAllLength(s[|p|..], p, r);
      } else {
        ReplaceAllLength(s[1..], p, r);
      }
    }
  }

  /** `ReplaceAll` only introduces characters of `r`. */
  lemma {:induction false} ReplaceAllChars(s: String, p: String, r: String, c: char)
    requires p != [] && c !in s && c !in r
    ensures c !in ReplaceAll(s, p, r)
    decreases |s|
  {
    if |s| >= |p| {
      if s[..|p|] == p {
        ReplaceAllChars(s[|p|..], p, r, c);
      } else {
        ReplaceAllChars(s[1..], p, r, c);
      }
    }
  }
}
