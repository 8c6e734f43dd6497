/** Item index translation between the base game's numbering and Hellfire's
    (RemapItemIdxFromDiablo and RemapItemIdxToDiablo in
    Source/loadsave.cpp). Hellfire inserted four oils at 83, the Scroll of
    Search at 92 and five items at 161, and moved the sorcerer's starting
    staff (base index IDI_SORCEROR) to 166. */
module Remap {

  /** The base game's index of the sorcerer's starting staff. */
  const IDI_SORCEROR: int := 5

  /** The marker for a Hellfire index with no base counterpart. */
  const Unrepresentable: int := -1

  /** Base index to Hellfire index: IDI_SORCEROR goes to 166; otherwise the
      three insertions shift the index up, the later ones first. */
  function FromDiablo(i: int): (r: int)
    ensures i == IDI_SORCEROR ==> r == 166
    ensures i != IDI_SORCEROR && i < 83 ==> r == i
    ensures 83 <= i < 88 ==> r == i + 4
    ensures 88 <= i < 156 ==> r == i + 5
    ensures 156 <= i ==> r == i + 10
  {
    if i == IDI_SORCEROR then
      166
    else
      var a := if i >= 156 then i + 5 else i;
      var b := if a >= 88 then a + 1 else a;
      if b >= 83 then b + 4 else b
  }

  /** Hellfire index to base index: 166 goes to IDI_SORCEROR; the oils, the
      Scroll of Search and everything from 161 on (except 166) have no base
      counterpart; the rest shift down. */
  function ToDiablo(i: int): (r: int)
    ensures r == Unrepresentable <==>
              i == Unrepresentable || (83 <= i <= 86) || i == 92 || (i >= 161 && i != 166)
    ensures i == 166 ==> r == IDI_SORCEROR
    ensures i < 83 ==> r == i
    ensures 87 <= i <= 91 ==> r == i - 4
    ensures 93 <= i <= 160 ==> r == i - 5
  {
    if i == 166 then
      IDI_SORCEROR
    else if (83 <= i <= 86) || i == 92 || i >= 161 then
      Unrepresentable
    else
      var a := if i >= 93 then i - 1 else i;
      if a >= 87 then a - 4 else a
  }

  /** Every base index up to 155 survives base -> Hellfire -> base; 156
      does not, because its Hellfire index is the staff's 166. */
  lemma {:induction false} BaseRoundTrip(i: int)
    ensures i <= 155 ==> ToDiablo(FromDiablo(i)) == i
    ensures i == 156 ==> FromDiablo(i) == 166 && ToDiablo(FromDiablo(i)) == IDI_SORCEROR
  {
  }

  /** A Hellfire index (other than the marker itself) survives Hellfire ->
      base -> Hellfire exactly when it has a base counterpart and is not
      IDI_SORCEROR, which comes back as 166. */
  lemma {:induction false} HellfireRoundTrip(i: int)
    requires i != Unrepresentable
    ensures FromDiablo(ToDiablo(i)) == i <==> ToDiablo(i) != Unrepresentable && i != IDI_SORCEROR
    ensures i == IDI_SORCEROR ==> FromDiablo(ToDiablo(i)) == 166
  {
  }

  /** Distinct base indices up to 155 get distinct Hellfire indices. */
  lemma {:induction false} FromDiabloInjective(i: int, j: int)
    requires i <= 155 && j <= 155 && i != j
    ensures FromDiablo(i) != FromDiablo(j)
  {
    BaseRoundTrip(i);
    BaseRoundTrip(j);
  }
}
