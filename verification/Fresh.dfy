/** Names that nobody uses yet. */
module Fresh {

  /** Strings never run out. */
  lemma {:induction false} FreshString(taken: set<string>) returns (pick: string)
    ensures pick !in taken && forall t :: t in taken ==> |t| < |pick|
  {
    if taken == {} {
      pick := "x";
    } else {
      var t :| t in taken;
      var longer := FreshString(taken - {t});
      pick := if |longer| > |t| then longer else t + "x";
      assert forall u :: u in taken ==> u == t || u in taken - {t};
    }
  }

  /** Nor do numbers. */
  lemma {:induction false} FreshNat(taken: set<nat>) returns (n: nat)
    ensures n !in taken && forall m :: m in taken ==> m < n
  {
    if taken == {} {
      n := 0;
    } else {
      var m :| m in taken;
      var above := FreshNat(taken - {m});
      n := if above > m then above else m + 1;
      assert forall k :: k in taken ==> k == m || k in taken - {m};
    }
  }
}
