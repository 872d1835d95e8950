/** The string operations the application takes from Python; only ASCII letters change case. */
module Texts {
  predicate IsLower(c: char) { 'a' <= c <= 'z' }

  predicate IsUpper(c: char) { 'A' <= c <= 'Z' }

  function LowerChar(c: char): char {
    if IsUpper(c) then 'a' + (c - 'A') else c
  }

  function Lower(s: string): (r: string)
    ensures |r| == |s|
    ensures forall k :: 0 <= k < |s| ==> r[k] == LowerChar(s[k])
  {
    if s == [] then [] else [LowerChar(s[0])] + Lower(s[1..])
  }

  /** What `str.isspace` holds of: ASCII blanks, the four separators below them, and the Unicode spaces. */
  predicate IsBlank(c: char) {
    || c == ' ' || '\t' <= c <= '\r' || '\U{1C}' <= c <= '\U{1F}'
    || c == '\U{85}' || c == '\U{A0}' || c == '\U{1680}' || '\U{2000}' <= c <= '\U{200A}'
    || c == '\U{2028}' || c == '\U{2029}' || c == '\U{202F}' || c == '\U{205F}' || c == '\U{3000}'
  }

  /** Among the characters below 128 these are the blanks. */
  lemma AsciiBlanks(c: char)
    requires c as int < 128
    ensures IsBlank(c) <==> c as int == 32 || 9 <= c as int <= 13 || 28 <= c as int <= 31
  {
  }

  function TrimLeft(s: string): string {
    if s != [] && IsBlank(s[0]) then TrimLeft(s[1..]) else s
  }

  function TrimRight(s: string): string {
    if s != [] && IsBlank(s[|s| - 1]) then TrimRight(s[..|s| - 1]) else s
  }

  /** `str.strip()`. */
  function Strip(s: string): string {
    TrimRight(TrimLeft(s))
  }

  predicate Blank(s: string) {
    forall k :: 0 <= k < |s| ==> IsBlank(s[k])
  }

  /** No blank at either end. */
  predicate Tight(s: string) {
    s != [] ==> !IsBlank(s[0]) && !IsBlank(s[|s| - 1])
  }

  lemma {:induction false} TrimLeftMeaning(s: string) returns (i: nat)
    ensures i <= |s| && TrimLeft(s) == s[i..] && Blank(s[..i]) && (i < |s| ==> !IsBlank(s[i]))
  {
    i := 0;
    if s != [] && IsBlank(s[0]) {
      var i0 := TrimLeftMeaning(s[1..]);
      i := i0 + 1;
      assert s[..i] == [s[0]] + s[1..][..i0];
    }
  }

  lemma {:induction false} TrimRightMeaning(s: string) returns (j: nat)
    ensures j <= |s| && TrimRight(s) == s[..j] && Blank(s[j..]) && (0 < j ==> !IsBlank(s[j - 1]))
  {
    j := |s|;
    if s != [] && IsBlank(s[|s| - 1]) {
      var last := |s| - 1;
      j := TrimRightMeaning(s[..last]);
      assert s[j..] == s[..last][j..] + [s[last]];
    }
  }

  /** What is stripped are the blanks at both ends, and nothing else. */
  lemma StripMeaning(s: string) returns (i: nat, j: nat)
    ensures i <= j <= |s| && Strip(s) == s[i..j]
    ensures Blank(s[..i]) && Blank(s[j..]) && Tight(s[i..j])
  {
    i := TrimLeftMeaning(s);
    var j0 := TrimRightMeaning(s[i..]);
    j := i + j0;
    assert s[j..] == s[i..][j0..] && s[i..j] == s[i..][..j0];
    if 0 < j0 { assert s[i..j][0] == s[i] && s[i..j][j0 - 1] == s[i..][j0 - 1]; }
  }

  lemma StripBlank(s: string)
    ensures Strip(s) == "" <==> Blank(s)
  {
    var i, j := StripMeaning(s);
    assert s == s[..i] + s[i..j] + s[j..];
    assert Blank(s) && i < |s| ==> IsBlank(s[i]);
    assert i < j ==> s[i..j][0] == s[i];
  }

  lemma StripTight(s: string)
    requires Tight(s)
    ensures Strip(s) == s
  {
  }

  /** Blanks beside a text do not change what is stripped from it. */
  lemma StripBeside(s: string, blanks: string)
    requires Blank(blanks)
    ensures Strip(blanks + s) == Strip(s) == Strip(s + blanks)
  {
    TrimLeftBeside(s, blanks);
    if TrimLeft(s) == "" {
      StripBlank(s + blanks);
      StripBlank(s);
      var i := TrimLeftMeaning(s);
      assert s[..i] == s;
    } else {
      TrimLeftBefore(s, blanks);
      TrimRightBeside(TrimLeft(s), blanks);
    }
  }

  lemma {:induction false} TrimLeftBeside(s: string, blanks: string)
    requires Blank(blanks)
    ensures TrimLeft(blanks + s) == TrimLeft(s)
  {
    if blanks == [] {
      assert blanks + s == s;
    } else {
      assert (blanks + s)[1..] == blanks[1..] + s;
      TrimLeftBeside(s, blanks[1..]);
    }
  }

  lemma {:induction false} TrimLeftBefore(s: string, blanks: string)
    requires TrimLeft(s) != ""
    ensures TrimLeft(s + blanks) == TrimLeft(s) + blanks
  {
    if s != [] && IsBlank(s[0]) {
      assert (s + blanks)[1..] == s[1..] + blanks;
      TrimLeftBefore(s[1..], blanks);
    }
  }

  lemma {:induction false} TrimRightBeside(s: string, blanks: string)
    requires Blank(blanks)
    ensures TrimRight(s + blanks) == TrimRight(s)
  {
    if blanks == [] {
      assert s + blanks == s;
    } else {
      var last := |blanks| - 1;
      assert (s + blanks)[..|s + blanks| - 1] == s + blanks[..last];
      TrimRightBeside(s, blanks[..last]);
    }
  }

  /** A character in front of a split text: a delimiter opens an empty segment, another joins the first. */
  function Attach(c: char, delimits: bool, segments: seq<string>): (r: seq<string>)
    requires |segments| > 0
    ensures |r| == |segments| + if delimits then 1 else 0
  {
    if delimits then [""] + segments else [[c] + segments[0]] + segments[1..]
  }

  /** `str.split` on any of the delimiters; the empty string has one empty segment. */
  function Split(s: string, delimiters: set<char>): (r: seq<string>)
    ensures |r| > 0
  {
    if s == [] then [""] else Attach(s[0], s[0] in delimiters, Split(s[1..], delimiters))
  }

  /** `s[i..j]` is delimited on both sides and has no delimiter inside. */
  ghost predicate IsSegment(s: string, delimiters: set<char>, i: int, j: int) {
    && 0 <= i <= j <= |s|
    && (i == 0 || s[i - 1] in delimiters)
    && (j == |s| || s[j] in delimiters)
    && forall k :: i <= k < j ==> s[k] !in delimiters
  }

  /** A segment of the tail is a segment of the text, unless the first character joins it. */
  lemma SegmentShift(s: string, delimiters: set<char>, i: int, j: int)
    requires s != [] && IsSegment(s[1..], delimiters, i, j)
    ensures s[1..][i..j] == s[i + 1..j + 1] && s[..j + 1] == [s[0]] + s[1..][..j]
    ensures 0 < i || s[0] in delimiters ==> IsSegment(s, delimiters, i + 1, j + 1)
    ensures i == 0 && s[0] !in delimiters ==> IsSegment(s, delimiters, 0, j + 1)
  {
    forall k | i + 1 <= k < j + 1 ensures s[k] !in delimiters {
      assert s[k] == s[1..][k - 1];
    }
  }

  lemma {:induction false} SplitSound(s: string, delimiters: set<char>, k: nat) returns (i: int, j: int)
    requires k < |Split(s, delimiters)|
    ensures IsSegment(s, delimiters, i, j) && Split(s, delimiters)[k] == s[i..j]
    ensures k == 0 <==> i == 0
  {
    i, j := 0, 0;
    if s != [] {
      var rest := Split(s[1..], delimiters);
      if s[0] !in delimiters {
        i, j := SplitSound(s[1..], delimiters, k);
        SegmentShift(s, delimiters, i, j);
        i, j := if k == 0 then 0 else i + 1, j + 1;
      } else if k > 0 {
        i, j := SplitSound(s[1..], delimiters, k - 1);
        SegmentShift(s, delimiters, i, j);
        i, j := i + 1, j + 1;
      }
    }
  }

  lemma {:induction false} SplitComplete(s: string, delimiters: set<char>, i: int, j: int) returns (k: nat)
    requires IsSegment(s, delimiters, i, j)
    ensures k < |Split(s, delimiters)| && Split(s, delimiters)[k] == s[i..j]
    ensures k == 0 <==> i == 0
  {
    k := 0;
    if s != [] {
      if i > 0 {
        var k0 := SplitComplete(s[1..], delimiters, i - 1, j - 1);
        assert s[i..j] == s[1..][i - 1..j - 1];
        k := if s[0] in delimiters then k0 + 1 else k0;
      } else if j > 0 {
        var k0 := SplitComplete(s[1..], delimiters, 0, j - 1);
        assert k0 == 0;
        assert s[..j] == [s[0]] + s[1..][..j - 1];
      }
    }
  }

  lemma {:induction false} SplitWhole(s: string, delimiters: set<char>)
    requires forall k :: 0 <= k < |s| ==> s[k] !in delimiters
    ensures Split(s, delimiters) == [s]
  {
    if s != [] {
      SplitWhole(s[1..], delimiters);
      assert [s[0]] + s[1..] == s;
    }
  }

  lemma SplitCons(c: char, s: string, delimiters: set<char>)
    ensures Split([c] + s, delimiters) == Attach(c, c in delimiters, Split(s, delimiters))
  {
    assert ([c] + s)[1..] == s;
  }

  lemma AttachInFront(c: char, delimits: bool, f: seq<string>, b: seq<string>)
    requires |f| > 0
    ensures Attach(c, delimits, f + b) == Attach(c, delimits, f) + b
  {
    assert (f + b)[1..] == f[1..] + b;
  }

  /** Text put in front of a delimiter only adds segments in front. */
  lemma {:induction false} SplitPrefix(front: string, d: char, back: string, delimiters: set<char>)
    requires d in delimiters
    ensures Split(front + ([d] + back), delimiters) == Split(front, delimiters) + Split(back, delimiters)
  {
    if front == [] {
      assert front + ([d] + back) == [d] + back;
      SplitCons(d, back, delimiters);
    } else {
      var c, tail := front[0], front[1..];
      SplitPrefix(tail, d, back, delimiters);
      SplitCons(c, tail + ([d] + back), delimiters);
      assert [c] + (tail + ([d] + back)) == front + ([d] + back);
      AttachInFront(c, c in delimiters, Split(tail, delimiters), Split(back, delimiters));
    }
  }
}
