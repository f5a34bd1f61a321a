/** The 40 squares of the board, in order from Collect OSAP, with lookup by
    position and by name. The table never changes after the board is built. */
module Board {
  import opened Wrappers
  import Buildings
  import opened Players

  /** What stands on a square; ownable kinds carry their purchase metadata. */
  datatype SquareKind =
    | AcademicSquare(price: int, monopolyBlock: string, improvementCost: int)
    | ResidenceSquare(price: int)
    | GymSquare(price: int)
    | NeedlesHallSquare
    | TuitionSquare
    | SlcSquare
    | ActionSquare

  datatype Square = Square(name: string, position: int, kind: SquareKind)

  /** The square the board places at index `i` (0 to 39), in the order the
      board is filled; several names occur more than once. Every square reports
      its own index, and every ownable square has a positive price. */
  function Layout(i: int): (r: Square)
    requires 0 <= i < BoardSize
    ensures r.position == i
    ensures r.kind.AcademicSquare? || r.kind.ResidenceSquare? || r.kind.GymSquare? ==> r.kind.price > 0
  {
    match i
    case 0 => Square("Collect OSAP", 0, ActionSquare)
    case 1 => Square("AL", 1, AcademicSquare(40, "Arts1", 50))
    case 2 => Square("NEEDLES HALL", 2, NeedlesHallSquare)
    case 3 => Square("MKV", 3, ResidenceSquare(200))
    case 4 => Square("TUITION", 4, TuitionSquare)
    case 5 => Square("PAC", 5, GymSquare(150))
    case 6 => Square("SLC", 6, SlcSquare)
    case 7 => Square("ML", 7, AcademicSquare(60, "Arts1", 50))
    case 8 => Square("DC Tims Line", 8, ActionSquare)
    case 9 => Square("ECH", 9, AcademicSquare(100, "Arts2", 50))
    case 10 => Square("PAS", 10, AcademicSquare(100, "Arts2", 50))
    case 11 => Square("NEEDLES HALL", 11, NeedlesHallSquare)
    case 12 => Square("V1", 12, ResidenceSquare(200))
    case 13 => Square("CIF", 13, GymSquare(150))
    case 14 => Square("REV", 14, ResidenceSquare(200))
    case 15 => Square("HH", 15, AcademicSquare(120, "Arts2", 50))
    case 16 => Square("SLC", 16, SlcSquare)
    case 17 => Square("RCH", 17, AcademicSquare(140, "Eng", 100))
    case 18 => Square("PAC", 18, GymSquare(150))
    case 19 => Square("CPH", 19, AcademicSquare(160, "Eng", 100))
    case 20 => Square("DC Tims Line", 20, ActionSquare)
    case 21 => Square("LHI", 21, AcademicSquare(180, "Health", 100))
    case 22 => Square("NEEDLES HALL", 22, NeedlesHallSquare)
    case 23 => Square("UWP", 23, ResidenceSquare(200))
    case 24 => Square("SLC", 24, SlcSquare)
    case 25 => Square("ESC", 25, AcademicSquare(300, "Sci2", 200))
    case 26 => Square("C2", 26, AcademicSquare(320, "Sci2", 200))
    case 27 => Square("NEEDLES HALL", 27, NeedlesHallSquare)
    case 28 => Square("EIT", 28, AcademicSquare(300, "Sci2", 200))
    case 29 => Square("MC", 29, AcademicSquare(350, "Math", 200))
    case 30 => Square("GO TO TIMS", 30, ActionSquare)
    case 31 => Square("B1", 31, AcademicSquare(260, "Sci1", 150))
    case 32 => Square("B2", 32, AcademicSquare(280, "Sci1", 150))
    case 33 => Square("SLC", 33, SlcSquare)
    case 34 => Square("PHYS", 34, AcademicSquare(260, "Sci1", 150))
    case 35 => Square("EV1", 35, AcademicSquare(220, "Env", 150))
    case 36 => Square("NEEDLES HALL", 36, NeedlesHallSquare)
    case 37 => Square("EV2", 37, AcademicSquare(220, "Env", 150))
    case 38 => Square("EV3", 38, AcademicSquare(240, "Env", 150))
    case _ => Square("DC", 39, AcademicSquare(400, "Math", 200))
  }

  /** The board has 40 squares and each one reports its own index as its position. */
  lemma LayoutPositions()
    ensures forall i :: 0 <= i < BoardSize ==> Layout(i).position == i
  {
  }

  /** The square at a position, or nothing off the board. */
  function GetSquare(position: int): (r: Option<Square>)
    ensures r.None? <==> position < 0 || position >= BoardSize
    ensures r.Some? ==> r.value == Layout(position) && r.value.position == position
  {
    LayoutPositions();
    if position < 0 || position >= BoardSize then None else Some(Layout(position))
  }

  /** The lowest index at or after `from` whose square is named `name`. */
  function FirstNamed(name: string, from: nat): (r: Option<nat>)
    ensures r.Some? ==> from <= r.value < BoardSize && Layout(r.value).name == name
    ensures r.Some? ==> forall j :: from <= j < r.value ==> Layout(j).name != name
    ensures r.None? ==> forall j :: from <= j < BoardSize ==> Layout(j).name != name
    decreases BoardSize - from
  {
    if from >= BoardSize then None
    else if Layout(from).name == name then Some(from)
    else FirstNamed(name, from + 1)
  }

  /** Linear search for a square by name; the first match wins. */
  method GetSquareByName(name: string) returns (r: Option<Square>)
    ensures r.None? <==> forall i :: 0 <= i < BoardSize ==> Layout(i).name != name
    ensures r.Some? ==> FirstNamed(name, 0) == Some(r.value.position)
    ensures r.Some? ==> r.value == Layout(r.value.position) && r.value.name == name
  {
    LayoutPositions();
    for i := 0 to BoardSize
      invariant forall j :: 0 <= j < i ==> Layout(j).name != name
    {
      var square := Layout(i);
      if square.name == name {
        FirstIsUnique(name, i);
        return Some(square);
      }
    }
    return None;
  }

  /** An index holding the name, with no earlier one, is the first match. */
  lemma FirstIsUnique(name: string, k: nat)
    requires k < BoardSize && Layout(k).name == name
    requires forall j :: 0 <= j < k ==> Layout(j).name != name
    ensures FirstNamed(name, 0) == Some(k)
  {
  }

  /** "NEEDLES HALL" stands at 2, 11, 22, 27 and 36; a search by name finds 2. */
  lemma NeedlesHallResolvesFirst()
    ensures Layout(2).name == Layout(11).name == Layout(22).name == Layout(27).name == Layout(36).name == "NEEDLES HALL"
    ensures FirstNamed("NEEDLES HALL", 0) == Some(2)
  {
    FirstIsUnique("NEEDLES HALL", 2);
  }

  /** "SLC" stands at 6, 16, 24 and 33; a search by name finds 6. */
  lemma SlcResolvesFirst()
    ensures Layout(6).name == Layout(16).name == Layout(24).name == Layout(33).name == "SLC"
    ensures FirstNamed("SLC", 0) == Some(6)
  {
    FirstIsUnique("SLC", 6);
  }

  /** Two different gyms are named "PAC", at 5 and 18; a search by name finds 5. */
  lemma PacResolvesFirst()
    ensures Layout(5).name == Layout(18).name == "PAC"
    ensures Layout(5).kind.GymSquare? && Layout(18).kind.GymSquare?
    ensures FirstNamed("PAC", 0) == Some(5)
  {
    FirstIsUnique("PAC", 5);
  }

  /** "DC Tims Line" stands at 8 and 20; a search by name finds 8. */
  lemma TimsLineResolvesFirst()
    ensures Layout(8).name == Layout(20).name == "DC Tims Line"
    ensures FirstNamed("DC Tims Line", 0) == Some(8)
  {
    FirstIsUnique("DC Tims Line", 8);
  }

  /** Every academic building on the board has a row in the rent table, so its
      rent never falls back to 0. */
  lemma AcademicSquaresPriced()
    ensures forall i :: 0 <= i < BoardSize && Layout(i).kind.AcademicSquare? ==>
              Layout(i).name in Buildings.RentTable
  {
  }

  /** No other square shares the name of an academic building. */
  lemma AcademicNamesUnique()
    ensures forall i, j :: 0 <= i < BoardSize && 0 <= j < BoardSize && i != j && Layout(i).kind.AcademicSquare? ==>
              Layout(i).name != Layout(j).name
  {
  }
}
