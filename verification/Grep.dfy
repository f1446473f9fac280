/** match, matchhere and matchstar of user/grep.c, and what a pattern means.  Patterns and texts
  are C strings, here without their final NUL. */
module Grep {

  // ---------------------------------------------------------------- meaning

  /** One(p) stands for one character that p stands for, Many(p) for any number of them. */
  datatype Item = One(p: char) | Many(p: char)

  /** '.' stands for every character, any other one for itself. */
  predicate Hits(p: char, c: char) {
    p == '.' || p == c
  }

  /** The items of a pattern; a '$' at its end is none of them. */
  function Items(re: string): seq<Item> {
    if re == "" then []
    else if |re| >= 2 && re[1] == '*' then [Many(re[0])] + Items(re[2..])
    else if re == "$" then []
    else [One(re[0])] + Items(re[1..])
  }

  /** The pattern ends in a '$' that anchors it. */
  predicate Anchored(re: string) {
    if re == "" then false
    else if |re| >= 2 && re[1] == '*' then Anchored(re[2..])
    else if re == "$" then true
    else Anchored(re[1..])
  }

  /** The first k characters of w are ones that p stands for. */
  predicate Run(p: char, w: string, k: nat) {
    k <= |w| && forall x :: 0 <= x < k ==> Hits(p, w[x])
  }

  /** w is in the language of the items. */
  ghost predicate InLang(items: seq<Item>, w: string) {
    if items == [] then w == ""
    else
      match items[0]
      case One(p) => w != "" && Hits(p, w[0]) && InLang(items[1..], w[1..])
      case Many(p) => exists k: nat :: k <= |w| && Run(p, w, k) && InLang(items[1..], w[k..])
  }

  /** The first n characters of text match, and all of it is used if the pattern is anchored. */
  ghost predicate PrefixMatches(re: string, text: string, n: nat) {
    n <= |text| && InLang(Items(re), text[..n]) && (Anchored(re) ==> n == |text|)
  }

  ghost predicate Here(re: string, text: string) {
    exists n: nat :: PrefixMatches(re, text, n)
  }

  /** The meaning of a whole pattern: '^' at its start ties it to the start of the text. */
  ghost predicate Matches(re: string, text: string) {
    if re != "" && re[0] == '^' then Here(re[1..], text)
    else exists i: nat :: i <= |text| && Here(re, text[i..])
  }

  // ---------------------------------------------------------------- cases of the meaning

  lemma HereEmpty(text: string)
    ensures Here("", text)
  {
    assert PrefixMatches("", text, 0);
  }

  lemma HereEnd(text: string)
    ensures Here("$", text) <==> text == ""
  {
    if text == "" { assert PrefixMatches("$", text, 0); }
  }

  predicate IsStar(re: string) {
    |re| >= 2 && re[1] == '*'
  }

  lemma OnePrefix(re: string, text: string, n: nat)
    requires re != "" && !IsStar(re) && re != "$" && 0 < n <= |text|
    ensures PrefixMatches(re, text, n) <==> Hits(re[0], text[0]) && PrefixMatches(re[1..], text[1..], n - 1)
  {
    var items := Items(re);
    assert items == [One(re[0])] + Items(re[1..]);
    assert items[1..] == Items(re[1..]);
    assert text[..n][1..] == text[1..][..n - 1] && text[..n][0] == text[0];
  }

  lemma HereOne(re: string, text: string)
    requires re != "" && !IsStar(re) && re != "$"
    ensures Here(re, text) <==> text != "" && Hits(re[0], text[0]) && Here(re[1..], text[1..])
  {
    if n: nat :| PrefixMatches(re, text, n) {
      assert Items(re) == [One(re[0])] + Items(re[1..]);
      assert n > 0;
      OnePrefix(re, text, n);
      assert PrefixMatches(re[1..], text[1..], n - 1);
    }
    if text != "" && Hits(re[0], text[0]) && Here(re[1..], text[1..]) {
      var n: nat :| PrefixMatches(re[1..], text[1..], n);
      OnePrefix(re, text, n + 1);
      assert PrefixMatches(re, text, n + 1);
    }
  }

  /** k characters for the starred one, and the rest from there. */
  ghost predicate StarAt(re: string, text: string, k: nat) {
    IsStar(re) && k <= |text| && Run(re[0], text, k) && Here(re[2..], text[k..])
  }

  lemma ManyPrefix(re: string, text: string, n: nat, k: nat)
    requires IsStar(re) && k <= n <= |text| && Run(re[0], text, k)
    ensures InLang(Items(re)[1..], text[..n][k..]) && (Anchored(re) ==> n == |text|) <==>
      PrefixMatches(re[2..], text[k..], n - k)
  {
    assert Items(re) == [Many(re[0])] + Items(re[2..]);
    assert Items(re)[1..] == Items(re[2..]);
    assert text[..n][k..] == text[k..][..n - k];
  }

  lemma HereMany(re: string, text: string)
    requires IsStar(re)
    ensures Here(re, text) <==> exists k: nat :: StarAt(re, text, k)
  {
    var items := Items(re);
    assert items == [Many(re[0])] + Items(re[2..]);
    if n: nat :| PrefixMatches(re, text, n) {
      var w := text[..n];
      var k: nat :| k <= |w| && Run(re[0], w, k) && InLang(items[1..], w[k..]);
      assert forall x :: 0 <= x < k ==> w[x] == text[x];
      ManyPrefix(re, text, n, k);
      assert StarAt(re, text, k);
    }
    if k: nat :| StarAt(re, text, k) {
      var m: nat :| PrefixMatches(re[2..], text[k..], m);
      var n := m + k;
      ManyPrefix(re, text, n, k);
      var w := text[..n];
      assert Run(re[0], w, k) && InLang(items[1..], w[k..]);
      assert PrefixMatches(re, text, n);
    }
  }

  // ---------------------------------------------------------------- the matcher

  /** matchhere. */
  method MatchHere(re: string, text: string) returns (r: bool)
    ensures r <==> Here(re, text)
    decreases |re|
  {
    if re == "" {
      HereEmpty(text);
      return true;
    }
    if |re| >= 2 && re[1] == '*' {
      assert re == [re[0], '*'] + re[2..];
      r := MatchStar(re[0], re[2..], text);
      return;
    }
    if re == "$" {
      HereEnd(text);
      return text == "";
    }
    HereOne(re, text);
    if text != "" && (re[0] == '.' || re[0] == text[0]) {
      r := MatchHere(re[1..], text[1..]);
      return;
    }
    r := false;
  }

  /** matchstar: the pattern is c, '*' and re. */
  method MatchStar(c: char, re: string, text: string) returns (r: bool)
    ensures r <==> Here([c, '*'] + re, text)
    decreases |re| + 1
  {
    ghost var whole := [c, '*'] + re;
    assert whole[2..] == re;
    HereMany(whole, text);
    var i := 0;
    while true
      invariant 0 <= i <= |text| && Run(c, text, i)
      invariant forall k: nat :: k < i ==> !StarAt(whole, text, k)
      decreases |text| - i
    {
      r := MatchHere(re, text[i..]);
      if r {
        assert StarAt(whole, text, i);
        return;
      }
      if !(i < |text| && (text[i] == c || c == '.')) {
        NoLongerRun(whole, text, i);
        return false;
      }
      i := i + 1;
    }
  }

  /** A run that has ended does not go on. */
  lemma NoLongerRun(re: string, text: string, i: nat)
    requires IsStar(re) && i <= |text| && !(i < |text| && Hits(re[0], text[i]))
    ensures forall k: nat :: k > i ==> !StarAt(re, text, k)
  {
    forall k: nat | k > i && k <= |text| ensures !Run(re[0], text, k) {
    }
  }

  /** match: it finds a match exactly where the pattern means one. */
  method Match(re: string, text: string) returns (r: bool)
    ensures r <==> Matches(re, text)
  {
    if re != "" && re[0] == '^' {
      r := MatchHere(re[1..], text);
      return;
    }
    var i := 0;
    while true
      invariant 0 <= i <= |text| && forall k: nat :: k < i ==> !Here(re, text[k..])
      decreases |text| - i
    {
      r := MatchHere(re, text[i..]);
      if r {
        return;
      }
      if i == |text| {
        return false;
      }
      i := i + 1;
    }
  }
}
