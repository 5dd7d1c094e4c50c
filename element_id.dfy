/**
 * The identifier given to a new element on the map: "ID" followed by three
 * digits, each drawn from randrange(0, 9), so from 0 to 8. The draws are
 * parameters here.
 */
module ElementId {
  /** str() of one draw. */
  function Digit(d: nat): (c: char)
    requires d < 9
    ensures '0' <= c <= '8' && c as int - '0' as int == d
  {
    "012345678"[d]
  }

  predicate IsIconId(s: string)
  {
    |s| == 5 && s[..2] == "ID" && forall i :: 2 <= i < 5 ==> '0' <= s[i] <= '8'
  }

  function IconId(d0: nat, d1: nat, d2: nat): (id: string)
    requires d0 < 9 && d1 < 9 && d2 < 9
    ensures IsIconId(id)
    ensures id[2] as int - '0' as int == d0
    ensures id[3] as int - '0' as int == d1
    ensures id[4] as int - '0' as int == d2
  {
    "ID" + [Digit(d0), Digit(d1), Digit(d2)]
  }

  /**
   * The identifier determines the three draws: two elements share an
   * identifier exactly when their draws coincide, which nothing prevents.
   */
  lemma IconIdInjective(a0: nat, a1: nat, a2: nat, b0: nat, b1: nat, b2: nat)
    requires a0 < 9 && a1 < 9 && a2 < 9 && b0 < 9 && b1 < 9 && b2 < 9
    ensures IconId(a0, a1, a2) == IconId(b0, b1, b2) <==> a0 == b0 && a1 == b1 && a2 == b2
  {
    if IconId(a0, a1, a2) == IconId(b0, b1, b2) {
      assert IconId(a0, a1, a2)[2] == IconId(b0, b1, b2)[2];
      assert IconId(a0, a1, a2)[3] == IconId(b0, b1, b2)[3];
      assert IconId(a0, a1, a2)[4] == IconId(b0, b1, b2)[4];
    }
  }
}
