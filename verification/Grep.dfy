/** The regular-expression matcher of grep.c, against a denotational semantics.

    A C string is modelled by its characters before the terminating NUL, so re[i] and
    text[i] past the end read as NUL (Ch). */
module Grep {

  predicate CString(s: string) {
    forall i :: 0 <= i < |s| ==> s[i] != '\0'
  }

  /** Reading a C string at offset i. */
  function Ch(s: string, i: nat): (c: char)
  {
    if i < |s| then s[i] else '\0'
  }

  // ----- meaning of a pattern -----

  /** One item of a pattern: one character, any run of a character, or the end. */
  datatype Item = One(c: char) | Star(c: char) | End

  /** '.' stands for every character. */
  predicate Accepts(c: char, t: char) {
    c == '.' || c == t
  }

  /** The items of a pattern.  A star binds the character before it, whatever that is;
      '$' is the end only as the last character; every other character stands for itself. */
  function Items(re: string): (items: seq<Item>)
  {
    if re == "" then []
    else if Ch(re, 1) == '*' then [Star(re[0])] + Items(re[2..])
    else if re == "$" then [End]
    else [One(re[0])] + Items(re[1..])
  }

  /** The items denote exactly the text s, which is followed by the text after. */
  ghost predicate Denotes(items: seq<Item>, s: string, after: string)
    decreases |items|
  {
    if items == [] then s == ""
    else match items[0]
      case One(c) => |s| > 0 && Accepts(c, s[0]) && Denotes(items[1..], s[1..], after)
      case Star(c) => exists k ::
        0 <= k <= |s| && RunOf(c, s[..k]) && Denotes(items[1..], s[k..], after)
      case End => s == "" && after == "" && Denotes(items[1..], s, after)
  }

  predicate RunOf(c: char, s: string) {
    forall i :: 0 <= i < |s| ==> Accepts(c, s[i])
  }

  /** Some prefix of text is denoted by re. */
  ghost predicate MatchesAt(re: string, text: string) {
    exists k :: 0 <= k <= |text| && Denotes(Items(re), text[..k], text[k..])
  }

  /** The whole pattern: '^' ties it to the start of text, otherwise any position will do. */
  ghost predicate Matches(re: string, text: string) {
    if Ch(re, 0) == '^' then MatchesAt(re[1..], text)
    else exists i :: 0 <= i <= |text| && MatchesAt(re, text[i..])
  }

  // ----- the shape of MatchesAt, case by case -----

  lemma AtEmpty(text: string)
    ensures MatchesAt("", text)
  {
    assert Denotes(Items(""), text[..0], text[0..]);
  }

  lemma AtEnd(text: string)
    ensures MatchesAt("$", text) <==> text == ""
  {
    assert Items("$") == [End];
    assert Items("$")[1..] == [];
    if text == "" {
      assert Denotes(Items("$"), text[..0], text[0..]);
    }
  }

  lemma AtOne(re: string, text: string)
    requires re != "" && Ch(re, 1) != '*' && re != "$"
    ensures MatchesAt(re, text) <==> text != "" && Accepts(re[0], text[0]) && MatchesAt(re[1..], text[1..])
  {
    var items := Items(re);
    assert items[1..] == Items(re[1..]);
    if MatchesAt(re, text) {
      var k :| 0 <= k <= |text| && Denotes(items, text[..k], text[k..]);
      assert text[..k][1..] == text[1..][..k - 1];
      assert text[k..] == text[1..][k - 1..];
    }
    if text != "" && Accepts(re[0], text[0]) && MatchesAt(re[1..], text[1..]) {
      var k :| 0 <= k <= |text[1..]| && Denotes(Items(re[1..]), text[1..][..k], text[1..][k..]);
      assert text[..k + 1][1..] == text[1..][..k];
      assert text[k + 1..] == text[1..][k..];
      assert Denotes(items, text[..k + 1], text[k + 1..]);
    }
  }

  /** A star: some run of its character, then the rest. */
  lemma AtStar(re: string, text: string)
    requires re != "" && Ch(re, 1) == '*'
    ensures MatchesAt(re, text) <==>
      exists j :: 0 <= j <= |text| && RunOf(re[0], text[..j]) && MatchesAt(re[2..], text[j..])
  {
    var items := Items(re);
    assert items[1..] == Items(re[2..]);
    if MatchesAt(re, text) {
      var k :| 0 <= k <= |text| && Denotes(items, text[..k], text[k..]);
      var j :| 0 <= j <= k && RunOf(re[0], text[..k][..j]) && Denotes(items[1..], text[..k][j..], text[k..]);
      assert text[..k][..j] == text[..j];
      assert text[..k][j..] == text[j..][..k - j];
      assert text[k..] == text[j..][k - j..];
    }
    if j :| 0 <= j <= |text| && RunOf(re[0], text[..j]) && MatchesAt(re[2..], text[j..]) {
      var k :| 0 <= k <= |text[j..]| && Denotes(Items(re[2..]), text[j..][..k], text[j..][k..]);
      assert text[..j + k][..j] == text[..j];
      assert text[..j + k][j..] == text[j..][..k];
      assert text[j + k..] == text[j..][k..];
      assert Denotes(items, text[..j + k], text[j + k..]);
    }
  }

  // ----- the program -----

  /** matchhere: does re match at the beginning of text? */
  method MatchHere(re: string, text: string) returns (r: bool)
    requires CString(re) && CString(text)
    ensures r == MatchesAt(re, text)
    decreases |re|, 1
  {
    if Ch(re, 0) == '\0' {
      AtEmpty(text);
      assert re == "";
      return true;
    }
    if Ch(re, 1) == '*' {
      AtStar(re, text);
      r := MatchStar(re[0], re[2..], text);
      return;
    }
    if Ch(re, 0) == '$' && Ch(re, 1) == '\0' {
      assert re == "$";
      AtEnd(text);
      return Ch(text, 0) == '\0';
    }
    AtOne(re, text);
    if Ch(text, 0) != '\0' && (re[0] == '.' || re[0] == Ch(text, 0)) {
      r := MatchHere(re[1..], text[1..]);
      return;
    }
    return false;
  }

  /** matchstar: does some run of c, then re, match at the beginning of text? */
  method MatchStar(c: char, re: string, text: string) returns (r: bool)
    requires CString(re) && CString(text)
    ensures r == exists j :: 0 <= j <= |text| && RunOf(c, text[..j]) && MatchesAt(re, text[j..])
    decreases |re|, 2
  {
    var t := 0;
    while true
      invariant 0 <= t <= |text| && RunOf(c, text[..t])
      invariant forall j :: 0 <= j < t ==> !MatchesAt(re, text[j..])
      decreases |text| - t
    {
      var here := MatchHere(re, text[t..]);
      if here { return true; }
      if !(Ch(text, t) != '\0' && (Ch(text, t) == c || c == '.')) {
        forall j | t < j <= |text| ensures !RunOf(c, text[..j]) {
          assert text[..j][t] == text[t];
        }
        return false;
      }
      t := t + 1;
    }
  }

  /** match: 1 exactly when the pattern denotes some stretch of the text. */
  method Match(re: string, text: string) returns (r: bool)
    requires CString(re) && CString(text)
    ensures r == Matches(re, text)
  {
    if Ch(re, 0) == '^' {
      r := MatchHere(re[1..], text);
      return;
    }
    var t := 0;
    while true                              // must look at the empty string
      invariant 0 <= t <= |text|
      invariant forall i :: 0 <= i < t ==> !MatchesAt(re, text[i..])
      decreases |text| - t
    {
      var here := MatchHere(re, text[t..]);
      if here { return true; }
      if Ch(text, t) == '\0' { return false; }
      t := t + 1;
    }
  }
}
