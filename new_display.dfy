/** Cell helpers of the newer board printout: seven-column cells holding the
    tokens on a square or an academic building's improvement marks. */
module NewDisplay {
  import opened Text
  import opened Players
  import opened Buildings
  import Display

  /** Width of one cell of the newer board. */
  const CellWidth: int := 7

  /** The tokens on a square run together, padded with spaces to seven columns;
      more than seven columns of tokens are kept whole. An empty square shows as
      seven spaces. */
  method PlayerString(square: int, ps: seq<Player>) returns (r: string)
    ensures var t := Display.TokensOn(ps, square, "");
      && |r| == (if |t| >= CellWidth then |t| else CellWidth)
      && r[..|t|] == t
      && (forall k :: |t| <= k < |r| ==> r[k] == ' ')
    ensures (forall i :: 0 <= i < |ps| ==> ps[i].position != square) ==> r == "       "
  {
    r := "";
    for k := 0 to |ps|
      invariant r == Display.TokensOn(ps[..k], square, "")
    {
      assert ps[..k + 1][..k] == ps[..k];
      if ps[k].position == square {
        r := r + ps[k].token;
      }
    }
    assert ps[..|ps|] == ps;
    Display.TokensOnEmpty(ps, square, "");
    ghost var t := r;
    while |r| < CellWidth
      invariant |r| >= |t| && r[..|t|] == t
      invariant forall k :: |t| <= k < |r| ==> r[k] == ' '
      invariant |r| > |t| ==> |r| <= CellWidth
      decreases CellWidth - |r|
    {
      r := r + " ";
    }
  }

  /** The improvement cell of a square: one 'I' per improvement of an academic
      building, then spaces to seven columns. Any other square (a residence, a
      gym, or a square that is no building, given as null) is seven spaces. */
  function ImprovementString(sq: Building?): (r: string)
    reads sq
    requires sq != null ==> sq.Valid()
    ensures |r| == CellWidth
    ensures sq == null || !sq.kind.AcademicKind? ==> r == "       "
    ensures sq != null && sq.kind.AcademicKind? ==>
              forall k :: 0 <= k < CellWidth ==> r[k] == (if k < sq.improvements then 'I' else ' ')
  {
    if sq == null || !sq.kind.AcademicKind? then "       "
    else Repeat('I', sq.improvements) + Repeat(' ', CellWidth - sq.improvements)
  }

  /** The newer cell agrees with the older printout's helpers: the improvement
      marks fitted to seven columns. */
  lemma ImprovementStringMatchesDisplay(sq: Building)
    requires sq.Valid() && sq.kind.AcademicKind?
    ensures ImprovementString(sq) == Display.FitToWidth(Display.MakeImprovements(sq.improvements), CellWidth)
  {
    var r := ImprovementString(sq);
    var f := Display.FitToWidth(Display.MakeImprovements(sq.improvements), CellWidth);
    assert forall k :: 0 <= k < CellWidth ==> r[k] == f[k];
  }
}
