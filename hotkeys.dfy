/** `HotkeyManager._fmt`: a hotkey setting such as `ctrl+f9` becomes the
    listener's spelling `<ctrl>+<f9>`; a setting already in angle brackets
    is kept as it is. */
module Hotkeys {
  import opened Text

  /** A part of a combination: bracketed unless it already starts with `<`. */
  function WrapPart(p: String): (r: String)
    ensures StartsWith(r, "<")
    ensures '+' !in p ==> '+' !in r
  {
    if StartsWith(p, "<") then p else "<" + p + ">"
  }

  function Wrap(ps: seq<String>): (r: seq<String>)
    ensures |r| == |ps| && forall i :: 0 <= i < |ps| ==> r[i] == WrapPart(ps[i])
  {
    seq(|ps|, i requires 0 <= i < |ps| => WrapPart(ps[i]))
  }

  /** `_fmt`. */
  function Fmt(key: String): String {
    if key == [] then []
    else if StartsWith(key, "<") && EndsWith(key, ">") then key
    else if '+' in key then Join(Wrap(Split(key, '+')), "+")
    else "<" + key + ">"
  }

  // ---------------------------------------------------------------------
  // Properties

  lemma SplitTwo(s: String, sep: char)
    requires sep in s
    ensures |Split(s, sep)| >= 2
  {
  }

  lemma {:induction false} JoinFirst(parts: seq<String>, sep: String)
    requires parts != [] && StartsWith(parts[0], "<")
    ensures StartsWith(Join(parts, sep), "<")
  {
    if |parts| > 1 {
      assert Join(parts, sep) == parts[0] + sep + Join(parts[1..], sep);
      assert (parts[0] + sep + Join(parts[1..], sep))[..1] == parts[0][..1];
    }
  }

  lemma JoinHasSep(parts: seq<String>, sep: char)
    requires |parts| >= 2
    ensures sep in Join(parts, [sep])
  {
    var s := Join(parts, [sep]);
    assert s == parts[0] + [sep] + Join(parts[1..], [sep]);
    assert s[|parts[0]|] == sep;
  }

  /** Parts that all start with `<` are left alone. */
  lemma WrapKeeps(ps: seq<String>)
    requires forall i :: 0 <= i < |ps| ==> StartsWith(ps[i], "<")
    ensures Wrap(ps) == ps
  {
  }

  /** A non-empty setting gives a non-empty spelling that starts with `<`;
      an empty setting gives the empty spelling. */
  lemma FmtShape(key: String)
    ensures Fmt(key) == [] <==> key == []
    ensures key != [] ==> StartsWith(Fmt(key), "<")
  {
    if key != [] && !(StartsWith(key, "<") && EndsWith(key, ">")) && '+' in key {
      var ps := Split(key, '+');
      JoinFirst(Wrap(ps), "+");
    }
  }

  /** For a combination that is not already bracketed, the parts of the
      spelling are the setting's parts, each bracketed unless it starts
      with `<`. */
  lemma FmtParts(key: String)
    requires '+' in key && !(StartsWith(key, "<") && EndsWith(key, ">"))
    ensures Split(Fmt(key), '+') == Wrap(Split(key, '+'))
  {
    var ps := Split(key, '+');
    SplitJoin(Wrap(ps), '+');
  }

  /** Formatting a formatted hotkey changes nothing. */
  lemma FmtIdempotent(key: String)
    ensures Fmt(Fmt(key)) == Fmt(key)
  {
    if key != [] && !(StartsWith(key, "<") && EndsWith(key, ">")) {
      if '+' in key {
        CombinationStable(Split(key, '+'));
      } else {
        var r := "<" + key + ">";
        assert r[..1] == "<" && r[|r| - 1..] == ">";
        assert Fmt(key) == r;
      }
    }
  }

  /** The spelling of a combination is a fixed point of `Fmt`. */
  lemma CombinationStable(ps: seq<String>)
    requires |ps| >= 2 && forall i :: 0 <= i < |ps| ==> '+' !in ps[i]
    ensures var r := Join(Wrap(ps), "+"); Fmt(r) == r
  {
    var ws := Wrap(ps);
    var r := Join(ws, "+");
    JoinFirst(ws, "+");
    if !EndsWith(r, ">") {
      JoinHasSep(ws, '+');
      assert '+' in r;
      SplitJoin(ws, '+');
      WrapKeeps(ws);
      assert Fmt(r) == Join(Wrap(Split(r, '+')), "+");
    }
  }
}
