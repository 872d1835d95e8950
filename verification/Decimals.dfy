/** Decimal text of a user id, as carried in the `sub` claim. */
module Decimals {
  import opened Options

  predicate IsDigit(c: char) { '0' <= c <= '9' }

  /** `str(n)` for a natural number. */
  function Show(n: nat): (s: string)
    ensures s != "" && forall k :: 0 <= k < |s| ==> IsDigit(s[k])
  {
    var digit := '0' + (n % 10) as char;
    if n < 10 then [digit] else Show(n / 10) + [digit]
  }

  /** `int(s)` on plain digits; anything else is a `ValueError`. */
  function Read(s: string): Option<nat> {
    if s == "" || !IsDigit(s[|s| - 1]) then None
    else
      var digit := (s[|s| - 1] - '0') as nat;
      if |s| == 1 then Some(digit)
      else match Read(s[..|s| - 1])
        case None => None
        case Some(front) => Some(10 * front + digit)
  }

  lemma {:induction false} ReadShow(n: nat)
    ensures Read(Show(n)) == Some(n)
  {
    if n >= 10 {
      ReadShow(n / 10);
      var s := Show(n);
      assert s[..|s| - 1] == Show(n / 10);
    }
  }
}
