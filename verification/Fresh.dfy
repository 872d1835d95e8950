/** Values that are not in use yet. */
module Fresh {
  lemma {:induction false} FreshNat(used: set<nat>) returns (n: nat)
    ensures forall k :: k in used ==> k < n
  {
    n := 0;
    if used != {} {
      var k :| k in used;
      var below := FreshNat(used - {k});
      n := below + k + 1;
      forall j | j in used ensures j < n { assert j == k || j in used - {k}; }
    }
  }

  /** A text longer than every one in use. */
  lemma FreshText(used: set<string>) returns (text: string)
    ensures text !in used && text != ""
  {
    var lengths := set s | s in used :: |s|;
    var n := FreshNat(lengths);
    text := seq(n + 1, _ => 'x');
    assert text in used ==> |text| in lengths;
  }
}
