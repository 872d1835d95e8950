/** Which metadata keys name a credential: the camel-case rewrite and the delimiter pattern. */
module SensitiveKeys {
  import opened Texts

  const WORDS: set<string> := {"password", "token", "secret", "authorization", "credential"}

  const DELIMITERS: set<char> := {'_', '-'}

  /** `re.sub(r"([a-z])([A-Z])", r"\1_\2", key)`: matches are found left to right and do not overlap. */
  function Rewrite(key: string): string {
    if |key| >= 2 && IsLower(key[0]) && IsUpper(key[1]) then [key[0], '_', key[1]] + Rewrite(key[2..])
    else if key != [] then [key[0]] + Rewrite(key[1..])
    else []
  }

  /** `$` matches at the end and before a final newline. */
  predicate AtEnd(s: string, j: int)
    requires 0 <= j <= |s|
  {
    j == |s| || (j == |s| - 1 && s[j] == '\n')
  }

  /**
   * The letter a pattern that ignores case takes the character for.  Besides the ASCII letters it
   * takes the dotted capital and the dotless small i, the long s and the Kelvin sign.
   */
  function FoldChar(c: char): char {
    if c == '\U{130}' || c == '\U{131}' then 'i'
    else if c == '\U{17F}' then 's'
    else if c == '\U{212A}' then 'k'
    else LowerChar(c)
  }

  function Fold(s: string): (r: string)
    ensures |r| == |s|
    ensures forall k :: 0 <= k < |s| ==> r[k] == FoldChar(s[k])
  {
    seq(|s|, k requires 0 <= k < |s| => FoldChar(s[k]))
  }

  /** One of the words at `s[i..j]`, ignoring case, with a delimiter or a string end on either side. */
  predicate MatchAt(s: string, words: set<string>, i: int, j: int) {
    && 0 <= i <= j <= |s|
    && (i == 0 || s[i - 1] in DELIMITERS)
    && Fold(s[i..j]) in words
    && (AtEnd(s, j) || s[j] in DELIMITERS)
  }

  predicate Search(s: string, words: set<string>) {
    exists i, j | 0 <= i <= |s| && 0 <= j <= |s| :: MatchAt(s, words, i, j)
  }

  predicate IsSensitive(key: string) {
    Search(Rewrite(key), WORDS)
  }

  // ---------------------------------------------------------------- the simple form

  predicate HasSegmentIn(s: string, words: set<string>) {
    exists segment | segment in Split(s, DELIMITERS) :: Fold(segment) in words
  }

  /** The string without one final newline. */
  function Chomp(s: string): string {
    if s != [] && s[|s| - 1] == '\n' then s[..|s| - 1] else s
  }

  ghost predicate LowerCaseWords(words: set<string>) {
    forall w :: w in words ==> forall k :: 0 <= k < |w| ==> IsLower(w[k])
  }

  lemma WordsAreLowerCase()
    ensures LowerCaseWords(WORDS)
  {
    forall w | w in WORDS ensures forall k :: 0 <= k < |w| ==> IsLower(w[k]) {
      if w == "password" {
      } else if w == "token" {
      } else if w == "secret" {
      } else if w == "authorization" {
      } else {
        assert w == "credential";
      }
    }
  }

  lemma SearchFindsSegment(s: string, words: set<string>, i: int, j: int)
    requires LowerCaseWords(words) && MatchAt(s, words, i, j)
    ensures HasSegmentIn(Chomp(s), words)
  {
    var w := Fold(s[i..j]);
    forall k | i <= k < j ensures s[k] !in DELIMITERS && s[k] != '\n' {
      assert IsLower(w[k - i]) && w[k - i] == FoldChar(s[k]);
    }
    var t := Chomp(s);
    assert t[i..j] == s[i..j];
    var k := SplitComplete(t, DELIMITERS, i, j);
    assert t[i..j] in Split(t, DELIMITERS);
  }

  lemma SegmentIsFound(s: string, words: set<string>)
    requires HasSegmentIn(Chomp(s), words)
    ensures Search(s, words)
  {
    var t := Chomp(s);
    var segment :| segment in Split(t, DELIMITERS) && Fold(segment) in words;
    var k :| 0 <= k < |Split(t, DELIMITERS)| && Split(t, DELIMITERS)[k] == segment;
    var i, j := SplitSound(t, DELIMITERS, k);
    assert t[i..j] == s[i..j];
    assert MatchAt(s, words, i, j);
  }

  /**
   * The pattern flags a key exactly when some segment of the rewritten key, split on the delimiters
   * and with a final newline dropped, is a sensitive word ignoring case.
   */
  lemma SensitiveIffSegment(key: string)
    ensures IsSensitive(key) <==> HasSegmentIn(Chomp(Rewrite(key)), WORDS)
  {
    var s := Rewrite(key);
    WordsAreLowerCase();
    if IsSensitive(key) {
      var i, j :| 0 <= i <= |s| && 0 <= j <= |s| && MatchAt(s, WORDS, i, j);
      SearchFindsSegment(s, WORDS, i, j);
    }
    if HasSegmentIn(Chomp(s), WORDS) {
      SegmentIsFound(s, WORDS);
    }
  }

  // ---------------------------------------------------------------- the rewrite

  ghost predicate HasCamelHump(s: string) {
    exists k :: 0 < k < |s| && IsLower(s[k - 1]) && IsUpper(s[k])
  }

  /** `longer` is `s` with underscores put in. */
  ghost predicate AddsUnderscores(s: string, longer: string)
    decreases |longer|
  {
    if longer == [] then s == []
    else
      || (s != [] && s[0] == longer[0] && AddsUnderscores(s[1..], longer[1..]))
      || (longer[0] == '_' && AddsUnderscores(s, longer[1..]))
  }

  lemma {:induction false} RewriteRemovesHumps(key: string)
    ensures !HasCamelHump(Rewrite(key))
    ensures |Rewrite(key)| == 0 <==> |key| == 0
    ensures key != [] ==> Rewrite(key)[0] == key[0]
  {
    if |key| >= 2 && IsLower(key[0]) && IsUpper(key[1]) {
      RewriteRemovesHumps(key[2..]);
    } else if key != [] {
      RewriteRemovesHumps(key[1..]);
    }
  }

  lemma {:induction false} RewriteWithoutHumps(key: string)
    requires !HasCamelHump(key)
    ensures Rewrite(key) == key
  {
    if key != [] {
      assert |key| >= 2 ==> !(IsLower(key[1 - 1]) && IsUpper(key[1]));
      forall k | 0 < k < |key[1..]| ensures !(IsLower(key[1..][k - 1]) && IsUpper(key[1..][k])) {
        assert !(IsLower(key[k + 1 - 1]) && IsUpper(key[k + 1]));
      }
      RewriteWithoutHumps(key[1..]);
    }
  }

  lemma {:induction false} RewriteAddsUnderscores(key: string)
    ensures AddsUnderscores(key, Rewrite(key))
  {
    if |key| >= 2 && IsLower(key[0]) && IsUpper(key[1]) {
      RewriteAddsUnderscores(key[2..]);
      var tail := Rewrite(key[2..]);
      assert key[1..][1..] == key[2..] && ([key[1]] + tail)[1..] == tail;
      assert AddsUnderscores(key[1..], [key[1]] + tail);
      assert (['_', key[1]] + tail)[1..] == [key[1]] + tail;
      assert AddsUnderscores(key[1..], ['_', key[1]] + tail);
      assert Rewrite(key)[1..] == ['_', key[1]] + tail;
    } else if key != [] {
      RewriteAddsUnderscores(key[1..]);
      assert Rewrite(key)[1..] == Rewrite(key[1..]);
    }
  }

  /** An upper-case letter right after a lower-case one. */
  predicate Hump(s: string, k: int) {
    0 < k < |s| && 'a' <= s[k - 1] <= 'z' && 'A' <= s[k] <= 'Z'
  }

  /** How many humps there are up to position `k`. */
  function Humps(s: string, k: int): nat
    decreases k
  {
    if k <= 0 then 0 else Humps(s, k - 1) + if Hump(s, k) then 1 else 0
  }

  /** The humps of a text whose first `n` characters hold `h` of them, counted from there. */
  lemma {:induction false} HumpsShift(s: string, n: nat, k: int)
    requires n <= k && n <= |s| && (n < |s| && 0 < n ==> !Hump(s, n))
    ensures Humps(s, k) == Humps(s, if n == 0 then 0 else n - 1) + Humps(s[n..], k - n)
    decreases k
  {
    if k == n {
      assert n == 0 || Humps(s, n) == Humps(s, n - 1);
    } else {
      HumpsShift(s, n, k - 1);
      assert Hump(s, k) <==> Hump(s[n..], k - n);
    }
  }

  /** Where a character of the key is found in the rewritten key, and what stands in front of a hump. */
  ghost predicate PutAt(key: string, longer: string, k: int)
    requires 0 <= k < |key|
  {
    var at := k + Humps(key, k);
    && at < |longer| && longer[at] == key[k]
    && (Hump(key, k) ==> longer[at - 1] == '_')
  }

  lemma PutAtShift(key: string, n: nat, front: string, rest: string, k: int)
    requires 0 < n <= k < |key| && !Hump(key, n)
    requires |front| == n + Humps(key, n - 1) && PutAt(key[n..], rest, k - n)
    ensures PutAt(key, front + rest, k)
  {
    HumpsShift(key, n, k);
    var within := k - n + Humps(key[n..], k - n);
    assert k + Humps(key, k) == |front| + within;
    assert (front + rest)[|front| + within] == rest[within];
    if Hump(key, k) {
      HumpInTail(key, n, k);
      assert (front + rest)[|front| + within - 1] == rest[within - 1];
    }
  }

  lemma HumpInTail(key: string, n: nat, k: int)
    requires n < k < |key|
    ensures Hump(key, k) <==> Hump(key[n..], k - n)
    ensures Hump(key, k) ==> 0 < Humps(key[n..], k - n)
  {
    assert key[n..][k - n] == key[k] && key[n..][k - n - 1] == key[k - 1];
  }

  /**
   * Exactly what the rewrite does: the characters of the key in order, with one underscore in each hump
   * and nothing else.
   */
  lemma {:induction false} RewritePuts(key: string)
    ensures |Rewrite(key)| == |key| + Humps(key, |key| - 1)
    ensures forall k :: 0 <= k < |key| ==> PutAt(key, Rewrite(key), k)
  {
    if key != [] {
      var n := if |key| >= 2 && IsLower(key[0]) && IsUpper(key[1]) then 2 else 1;
      var front := if n == 2 then [key[0], '_', key[1]] else [key[0]];
      RewritePuts(key[n..]);
      assert Humps(key, 1) == (if Hump(key, 1) then 1 else 0) && Humps(key, 0) == 0;
      assert Rewrite(key) == front + Rewrite(key[n..]);
      if n < |key| { HumpsShift(key, n, |key| - 1); }
      forall k | 0 <= k < |key| ensures PutAt(key, Rewrite(key), k) {
        if n <= k { PutAtShift(key, n, front, Rewrite(key[n..]), k); }
      }
    }
  }

  /** What ignoring case means for a lower-case letter: its two forms, and the four that fold to it. */
  lemma FoldsTo(c: char, letter: char)
    requires 'a' <= letter <= 'z'
    ensures FoldChar(c) == letter <==>
      || c == letter
      || c as int == letter as int - 32
      || (letter == 'i' && c in {'\U{130}', '\U{131}'})
      || (letter == 's' && c == '\U{17F}')
      || (letter == 'k' && c == '\U{212A}')
  {
  }

  lemma SegmentFlags(key: string, rewritten: string, i: int, j: int)
    requires Rewrite(key) == rewritten && MatchAt(rewritten, WORDS, i, j)
    ensures IsSensitive(key)
  {
  }

  lemma WordFolds(w: string)
    requires w in WORDS
    ensures Fold(w) == w && !HasCamelHump(w)
  {
    WordsAreLowerCase();
  }

  lemma WordBehind(w: string, d: char, other: string)
    requires w in WORDS && d in {'_', '-'} && !HasCamelHump(other)
    ensures IsSensitive(other + [d] + w)
  {
    WordFolds(w);
    NoHumpBeside(other, d, w);
    var key := other + [d] + w;
    RewriteWithoutHumps(key);
    assert key[|other| + 1..|key|] == w;
    SegmentFlags(key, key, |other| + 1, |key|);
  }

  lemma WordBefore(w: string, d: char, other: string)
    requires w in WORDS && d in {'_', '-'} && !HasCamelHump(other)
    ensures IsSensitive(w + [d] + other)
  {
    WordFolds(w);
    NoHumpBeside(w, d, other);
    var key := w + [d] + other;
    RewriteWithoutHumps(key);
    assert key[0..|w|] == w;
    SegmentFlags(key, key, 0, |w|);
  }

  /** A word of the pattern is flagged alone, and behind and before either delimiter. */
  lemma WordIsFlagged(w: string, d: char, other: string)
    requires w in WORDS && d in {'_', '-'} && !HasCamelHump(other)
    ensures IsSensitive(w) && IsSensitive(other + [d] + w) && IsSensitive(w + [d] + other)
  {
    WordFolds(w);
    RewriteWithoutHumps(w);
    assert w[0..|w|] == w;
    SegmentFlags(w, w, 0, |w|);
    WordBehind(w, d, other);
    WordBefore(w, d, other);
  }

  lemma NoHumpBeside(a: string, d: char, b: string)
    requires d in {'_', '-'} && !HasCamelHump(a) && !HasCamelHump(b)
    ensures !HasCamelHump(a + [d] + b)
  {
    var s := a + [d] + b;
    forall k | 0 < k < |s| ensures !(IsLower(s[k - 1]) && IsUpper(s[k])) {
      if k < |a| {
        assert s[k - 1] == a[k - 1] && s[k] == a[k];
      } else if |a| + 1 < k {
        var n := k - |a| - 1;
        assert s[k - 1] == b[n - 1] && s[k] == b[n];
      }
    }
  }

  lemma {:induction false} RewriteAtHump(front: string, back: string)
    requires front != [] && back != [] && IsLower(front[|front| - 1]) && IsUpper(back[0])
    ensures Rewrite(front + back) == Rewrite(front) + ['_'] + Rewrite(back)
  {
    var key := front + back;
    if |front| == 1 {
      assert key[2..] == back[1..];
      assert Rewrite(front) == front && Rewrite(back) == [back[0]] + Rewrite(back[1..]);
    } else {
      var n := if IsLower(front[0]) && IsUpper(front[1]) then 2 else 1;
      assert key[n..] == front[n..] + back && front[n..] != [];
      RewriteAtHump(front[n..], back);
    }
  }

  /** A word of the pattern with a capital, at the end of a camel-case key: `accessToken`. */
  lemma CamelWordIsFlagged(front: string, word: string)
    requires front != [] && word != [] && IsLower(front[|front| - 1]) && IsUpper(word[0])
    requires Fold(word) in WORDS && !HasCamelHump(word)
    ensures IsSensitive(front + word)
  {
    RewriteAtHump(front, word);
    RewriteWithoutHumps(word);
    var before := Rewrite(front) + ['_'];
    assert (before + word)[|before|..] == word;
    assert (before + word)[|before|..|before + word|] == word;
    SegmentFlags(front + word, before + word, |before|, |before + word|);
  }

  /** The words the pattern names are flagged. */
  lemma CredentialKeys()
    ensures IsSensitive("password") && IsSensitive("token") && IsSensitive("secret")
    ensures IsSensitive("authorization") && IsSensitive("credential")
  {
    WordIsFlagged("password", '_', "");
    WordIsFlagged("token", '_', "");
    WordIsFlagged("secret", '_', "");
    WordIsFlagged("authorization", '_', "");
    WordIsFlagged("credential", '_', "");
  }

  /** The rewrite only inserts underscores, leaves no camel-case hump, and does nothing twice. */
  lemma RewriteProperties(key: string)
    ensures AddsUnderscores(key, Rewrite(key))
    ensures !HasCamelHump(Rewrite(key))
    ensures Rewrite(Rewrite(key)) == Rewrite(key)
    ensures Rewrite(key) == key <==> !HasCamelHump(key)
  {
    RewriteAddsUnderscores(key);
    RewriteRemovesHumps(key);
    RewriteWithoutHumps(Rewrite(key));
    if !HasCamelHump(key) { RewriteWithoutHumps(key); }
  }
}
