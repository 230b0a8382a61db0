/**
  The text matcher that recovers a hint from the database driver's detail text
  of a uniqueness violation, such as `Key (username)=(esteban) already exists.`.

  The code searches with the pattern `(?:\w*)(?:\()(\w*)*(?:\))`: a run of word
  characters, an opening parenthesis, a run of word characters, a closing
  parenthesis. Group 0 is the whole match and group 1 the inner run. This module
  writes that search out by hand: leftmost start position first, as the regex
  engine does. Neither parenthesis is a word character, so at a given start the
  two runs are forced to be maximal, and the match there is unique.
 */
module ConstraintExtractor {
  import opened Wrappers

  /** Word characters of the pattern's `\w` (ASCII letters, digits, underscore). */
  predicate IsWordChar(ch: char) {
    ('a' <= ch <= 'z') || ('A' <= ch <= 'Z') || ('0' <= ch <= '9') || ch == '_'
  }

  predicate IsWord(w: string) {
    forall i :: 0 <= i < |w| ==> IsWordChar(w[i])
  }

  /**
    The pattern matches `s` from `start` with a leading run of `prefixLen` word
    characters and an inner run of `innerLen` word characters.
   */
  predicate MatchSplit(s: string, start: nat, prefixLen: nat, innerLen: nat) {
    && start + prefixLen + innerLen + 2 <= |s|
    && IsWord(s[start..start + prefixLen])
    && s[start + prefixLen] == '('
    && IsWord(s[start + prefixLen + 1..start + prefixLen + 1 + innerLen])
    && s[start + prefixLen + 1 + innerLen] == ')'
  }

  /** Some match of the pattern begins at `start`. */
  ghost predicate MatchesAt(s: string, start: nat) {
    exists prefixLen: nat, innerLen: nat :: MatchSplit(s, start, prefixLen, innerLen)
  }

  /** Length of the longest run of word characters in `s` beginning at `i`. */
  function WordRun(s: string, i: nat): (n: nat)
    requires i <= |s|
    ensures i + n <= |s|
    ensures IsWord(s[i..i + n])
    ensures i + n == |s| || !IsWordChar(s[i + n])
    decreases |s| - i
  {
    if i == |s| || !IsWordChar(s[i]) then 0
    else 1 + WordRun(s, i + 1)
  }

  /** Any match at `start` consists of the two maximal runs. */
  lemma SplitIsRun(s: string, start: nat, prefixLen: nat, innerLen: nat)
    requires MatchSplit(s, start, prefixLen, innerLen)
    ensures prefixLen == WordRun(s, start)
    ensures innerLen == WordRun(s, start + prefixLen + 1)
  {
  }

  /** A word run ended by a non-word character is the maximal run. */
  lemma RunIsMaximal(s: string, i: nat, len: nat)
    requires i + len < |s|
    requires IsWord(s[i..i + len]) && !IsWordChar(s[i + len])
    ensures len == WordRun(s, i)
  {
  }

  /** The start and the two run lengths of a match. */
  datatype Span = Span(start: nat, prefixLen: nat, innerLen: nat)

  /** The leftmost match of the pattern beginning at or after `from`. */
  function FindMatch(s: string, from: nat): (r: Option<Span>)
    requires from <= |s|
    ensures r.Some? ==> from <= r.value.start
    ensures r.Some? ==> MatchSplit(s, r.value.start, r.value.prefixLen, r.value.innerLen)
    ensures r.Some? ==> forall q: nat :: from <= q < r.value.start ==> !MatchesAt(s, q)
    ensures r.None? ==> forall q: nat :: from <= q <= |s| ==> !MatchesAt(s, q)
    decreases |s| - from
  {
    var k := WordRun(s, from);
    if from + k < |s| && s[from + k] == '(' then
      var m := WordRun(s, from + k + 1);
      if from + k + 1 + m < |s| && s[from + k + 1 + m] == ')' then
        Some(Span(from, k, m))
      else
        NoMatchHere(s, from);
        if from == |s| then None else FindMatch(s, from + 1)
    else
      NoMatchHere(s, from);
      if from == |s| then None else FindMatch(s, from + 1)
  }

  /** When the maximal runs at `from` do not fit the pattern, nothing matches there. */
  lemma NoMatchHere(s: string, from: nat)
    requires from <= |s|
    requires var k := WordRun(s, from);
             !(from + k < |s| && s[from + k] == '(' &&
               var m := WordRun(s, from + k + 1);
               from + k + 1 + m < |s| && s[from + k + 1 + m] == ')')
    ensures !MatchesAt(s, from)
  {
  }

  /** At most one split matches at a given start. */
  lemma SplitUnique(s: string, start: nat, k1: nat, m1: nat, k2: nat, m2: nat)
    requires MatchSplit(s, start, k1, m1) && MatchSplit(s, start, k2, m2)
    ensures k1 == k2 && m1 == m2
  {
  }

  /** The two capture groups the code reads, and where group 0 begins. */
  datatype Captures = Captures(start: nat, group0: string, group1: string)

  /** The text before the opening parenthesis of group 0. */
  function Prefix(c: Captures): string
    requires |c.group1| + 2 <= |c.group0|
  {
    c.group0[..|c.group0| - |c.group1| - 2]
  }

  /** The captures are the text of a match of the pattern in `s`. */
  predicate CapturedFrom(s: string, c: Captures) {
    && c.start + |c.group0| <= |s|
    && s[c.start..c.start + |c.group0|] == c.group0
    && |c.group1| + 2 <= |c.group0|
    && c.group0 == Prefix(c) + "(" + c.group1 + ")"
    && IsWord(Prefix(c)) && IsWord(c.group1)
  }

  /** The captures of the match `sp`. */
  function CapturesAt(s: string, sp: Span): (c: Captures)
    requires MatchSplit(s, sp.start, sp.prefixLen, sp.innerLen)
    ensures CapturedFrom(s, c) && c.start == sp.start
    ensures |Prefix(c)| == sp.prefixLen && |c.group1| == sp.innerLen
  {
    var inner := sp.start + sp.prefixLen + 1;
    var c := Captures(sp.start, s[sp.start..inner + sp.innerLen + 1], s[inner..inner + sp.innerLen]);
    assert c.group0 == s[sp.start..sp.start + sp.prefixLen] + "(" + c.group1 + ")";
    c
  }

  /**
    The captures of the leftmost match in `details`, or `None` when the pattern
    matches nowhere.
   */
  function Extract(details: string): (r: Option<Captures>)
    ensures r.None? <==> forall q: nat :: q <= |details| ==> !MatchesAt(details, q)
    ensures r.Some? ==> CapturedFrom(details, r.value)
    ensures r.Some? ==> MatchSplit(details, r.value.start, |Prefix(r.value)|, |r.value.group1|)
    ensures r.Some? ==> forall q: nat :: q < r.value.start ==> !MatchesAt(details, q)
  {
    match FindMatch(details, 0)
    case None => None
    case Some(sp) =>
      assert MatchesAt(details, sp.start);
      Some(CapturesAt(details, sp))
  }

  /**
    On the driver's detail grammar `Key (<column>)=(<value>) ...`, group 0 is the
    parenthesised column and group 1 the bare column; the value is never captured.
   */
  lemma ExtractDriverDetail(column: string, rest: string)
    requires IsWord(column)
    ensures Extract("Key (" + column + ")" + rest) == Some(Captures(4, "(" + column + ")", column))
  {
    var s := "Key (" + column + ")" + rest;
    var n := |column|;
    assert s[..4] == "Key " && s[4] == '(' && s[5 + n] == ')';
    assert s[5..5 + n] == column;
    assert s[0] == 'K' && s[1] == 'e' && s[2] == 'y' && s[3] == ' ';
    RunIsMaximal(s, 5, n);
    RunIsMaximal(s, 4, 0);
    RunIsMaximal(s, 3, 0);
    RunIsMaximal(s, 2, 1);
    RunIsMaximal(s, 1, 2);
    RunIsMaximal(s, 0, 3);
    assert FindMatch(s, 4) == Some(Span(4, 0, n));
    assert FindMatch(s, 3) == FindMatch(s, 4);
    assert FindMatch(s, 2) == FindMatch(s, 3);
    assert FindMatch(s, 1) == FindMatch(s, 2);
    assert FindMatch(s, 0) == FindMatch(s, 1);
    assert s[4..6 + n] == "(" + column + ")";
  }

  /**
    The driver's usual detail text yields the column name in parentheses as
    group 0 and the bare column name as group 1.
   */
  lemma ExtractSample(column: string, rest: string)
    requires column == "username" && rest == "=(esteban) already exists."
    ensures Extract("Key (" + column + ")" + rest) == Some(Captures(4, "(username)", "username"))
  {
    assert column[0] == 'u' && column[1] == 's' && column[2] == 'e' && column[3] == 'r';
    assert column[4] == 'n' && column[5] == 'a' && column[6] == 'm' && column[7] == 'e';
    assert "(" + column + ")" == "(username)";
    ExtractDriverDetail(column, rest);
  }
}
