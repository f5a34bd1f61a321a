/** Ownable squares: academic buildings, residences and gyms. The three share
    the owner token, price and landing classification of their common base; an
    academic building adds a monopoly block, an improvement cost and an
    improvement counter. */
module Buildings {
  import opened Wrappers
  import opened LandActions
  import opened Players

  /** The most improvements an academic building can carry. */
  const MaxImprovements: int := 5

  /** Which kind of ownable square a building is, with what that kind adds. */
  datatype Kind =
    | AcademicKind(monopolyBlock: string, improvementCost: int)
    | ResidenceKind
    | GymKind

  /** Rent per improvement level (0 to 5) of each academic building, by name. */
  const RentTable: map<string, seq<int>> := map[
    "AL" := [2, 10, 30, 90, 160, 250],
    "ML" := [4, 20, 60, 180, 320, 450],
    "ECH" := [6, 30, 90, 270, 400, 550],
    "PAS" := [6, 30, 90, 270, 400, 550],
    "HH" := [8, 40, 100, 300, 450, 600],
    "RCH" := [10, 50, 150, 450, 625, 750],
    "DWE" := [10, 50, 150, 450, 625, 750],
    "CPH" := [12, 60, 180, 500, 700, 900],
    "LHI" := [14, 70, 200, 550, 750, 950],
    "BMH" := [14, 70, 200, 550, 750, 950],
    "OPT" := [16, 80, 220, 600, 800, 1000],
    "EV1" := [18, 90, 250, 700, 875, 1050],
    "EV2" := [18, 90, 250, 700, 875, 1050],
    "EV3" := [20, 100, 300, 750, 925, 1100],
    "PHYS" := [22, 110, 330, 800, 975, 1150],
    "B1" := [22, 110, 330, 800, 975, 1150],
    "B2" := [24, 120, 360, 850, 1025, 1200],
    "EIT" := [26, 130, 390, 900, 1100, 1275],
    "ESC" := [26, 130, 390, 900, 1100, 1275],
    "C2" := [28, 150, 450, 1000, 1200, 1400],
    "MC" := [35, 175, 500, 1100, 1300, 1500],
    "DC" := [50, 200, 600, 1400, 1700, 2000]
  ]

  /** Every row of the rent table has one entry per level and grows strictly. */
  lemma RentRowsIncreasing()
    ensures forall name :: name in RentTable ==> |RentTable[name]| == MaxImprovements + 1
    ensures forall name, i :: name in RentTable && 0 <= i < MaxImprovements ==>
              0 < RentTable[name][i] < RentTable[name][i + 1]
  {
  }

  /** Rent of an academic building: looked up by name and level; a name missing
      from the table yields 0. */
  function AcademicRent(name: string, level: int): (r: int)
    requires 0 <= level <= MaxImprovements
    ensures name !in RentTable ==> r == 0
    ensures name in RentTable ==> r == RentTable[name][level] && r > 0
  {
    RentRowsIncreasing();
    if name in RentTable then RentTable[name][level] else 0
  }

  /** For a building in the table, rent strictly grows with every improvement. */
  lemma {:induction false} RentStrictlyMonotone(name: string, i: int, j: int)
    requires name in RentTable
    requires 0 <= i < j <= MaxImprovements
    ensures AcademicRent(name, i) < AcademicRent(name, j)
    decreases j - i
  {
    RentRowsIncreasing();
    if i + 1 < j {
      RentStrictlyMonotone(name, i + 1, j);
    }
  }

  /** Residence rent by the number of residences the owner holds (1 to 4), as
      documented for the game; each extra residence doubles it. */
  function ResidenceRent(owned: int): (r: int)
    requires 1 <= owned <= 4
    ensures owned == 1 ==> r == 25
    ensures owned > 1 ==> r == 2 * ResidenceRent(owned - 1)
  {
    if owned == 1 then 25 else if owned == 2 then 50 else if owned == 3 then 100 else 200
  }

  /** Gym rent, as documented: 4 times the dice total with one gym owned, 10 times
      with both. */
  function GymRent(owned: int, diceTotal: int): (r: int)
    requires owned == 1 || owned == 2
    ensures diceTotal >= 0 ==> r >= 0
  {
    if owned == 1 then 4 * diceTotal else 10 * diceTotal
  }

  /** Owning the second gym never lowers the rent of a roll: it raises it by a
      factor of five halves, and a roll of 0 costs nothing either way. */
  lemma GymRentGrowsWithGyms(diceTotal: int)
    requires diceTotal >= 0
    ensures 0 <= GymRent(1, diceTotal) <= GymRent(2, diceTotal)
    ensures 2 * GymRent(2, diceTotal) == 5 * GymRent(1, diceTotal)
    ensures GymRent(1, diceTotal) == 0 <==> diceTotal == 0
  {
  }

  /** Adding an improvement: refused (the game throws) at the maximum. */
  function Improved(count: int): (r: Result<int, string>)
    ensures r.Success? <==> count < MaxImprovements
    ensures r.Success? ==> r.value == count + 1
    ensures r.Failure? ==> r.error == "Max improvements reached"
  {
    if count >= MaxImprovements then Failure("Max improvements reached") else Success(count + 1)
  }

  /** Removing an improvement: refused (the game throws) when there is none. */
  function Degraded(count: int): (r: Result<int, string>)
    ensures r.Success? <==> count > 0
    ensures r.Success? ==> r.value == count - 1
    ensures r.Failure? ==> r.error == "No improvements to remove"
  {
    if count <= 0 then Failure("No improvements to remove") else Success(count - 1)
  }

  /** Both steps keep the count within 0 to 5, and succeed exactly when that room exists. */
  lemma ImprovementStepsStayInRange(count: int)
    requires 0 <= count <= MaxImprovements
    ensures Improved(count).Success? <==> count < MaxImprovements
    ensures Degraded(count).Success? <==> count > 0
    ensures Improved(count).Success? ==> 0 <= Improved(count).value <= MaxImprovements
    ensures Degraded(count).Success? ==> 0 <= Degraded(count).value <= MaxImprovements
  {
  }

  /** A successful add followed by a remove restores the count, and vice versa. */
  lemma ImproveDegradeRoundTrip(count: int)
    requires 0 <= count <= MaxImprovements
    ensures Improved(count).Success? ==> Degraded(Improved(count).value) == Success(count)
    ensures Degraded(count).Success? ==> Improved(Degraded(count).value) == Success(count)
  {
  }

  class Building {
    const name: string
    const position: int
    const price: int
    const kind: Kind
    var ownerToken: string
    var mortgaged: bool
    var improvements: int

    /** Only academic buildings carry improvements, never more than five. */
    ghost predicate Valid()
      reads this
    {
      0 <= improvements <= MaxImprovements && (!kind.AcademicKind? ==> improvements == 0)
    }

    /** An academic building starts bank-owned, unmortgaged and unimproved. */
    constructor Academic(name: string, position: int, price: int, monopolyBlock: string, improvementCost: int)
      ensures Valid()
      ensures this.name == name && this.position == position && this.price == price
      ensures kind == AcademicKind(monopolyBlock, improvementCost)
      ensures ownerToken == Bank && !mortgaged && improvements == 0
    {
      this.name := name;
      this.position := position;
      this.price := price;
      kind := AcademicKind(monopolyBlock, improvementCost);
      ownerToken := Bank;
      mortgaged := false;
      improvements := 0;
    }

    /** A residence starts bank-owned and unmortgaged at the given price. */
    constructor Residence(name: string, position: int, price: int)
      ensures Valid()
      ensures this.name == name && this.position == position && this.price == price
      ensures kind == ResidenceKind
      ensures ownerToken == Bank && !mortgaged
    {
      this.name := name;
      this.position := position;
      this.price := price;
      kind := ResidenceKind;
      ownerToken := Bank;
      mortgaged := false;
      improvements := 0;
    }

    /** A gym starts bank-owned and unmortgaged at the given price. */
    constructor Gym(name: string, position: int, price: int)
      ensures Valid()
      ensures this.name == name && this.position == position && this.price == price
      ensures kind == GymKind
      ensures ownerToken == Bank && !mortgaged
    {
      this.name := name;
      this.position := position;
      this.price := price;
      kind := GymKind;
      ownerToken := Bank;
      mortgaged := false;
      improvements := 0;
    }

    method SetOwnerToken(token: string)
      modifies this`ownerToken
      ensures ownerToken == token
    {
      ownerToken := token;
    }

    /** What landing here asks of the controller. Exactly one of three answers:
        only the literal bank token means unowned, any other token that is not
        the lander's means rent. Nothing is changed. */
    function OnLand(lander: Player): (a: LandAction)
      reads this
      ensures a == PromptPurchase <==> ownerToken == Bank
      ensures a == PayRent <==> ownerToken != Bank && ownerToken != lander.token
      ensures a == Owned <==> ownerToken != Bank && ownerToken == lander.token
    {
      if ownerToken == Bank then PromptPurchase
      else if ownerToken != lander.token then PayRent
      else Owned
    }

    method AddImprovement() returns (outcome: Outcome<string>)
      requires Valid() && kind.AcademicKind?
      modifies this`improvements
      ensures Valid()
      ensures Improved(old(improvements)) == (if outcome.Pass? then Success(improvements) else Failure(outcome.error))
      ensures outcome.Fail? ==> improvements == old(improvements)
    {
      if improvements >= MaxImprovements {
        return Fail("Max improvements reached");
      }
      improvements := improvements + 1;
      outcome := Pass;
    }

    method RemoveImprovement() returns (outcome: Outcome<string>)
      requires Valid() && kind.AcademicKind?
      modifies this`improvements
      ensures Valid()
      ensures Degraded(old(improvements)) == (if outcome.Pass? then Success(improvements) else Failure(outcome.error))
      ensures outcome.Fail? ==> improvements == old(improvements)
    {
      if improvements <= 0 {
        return Fail("No improvements to remove");
      }
      improvements := improvements - 1;
      outcome := Pass;
    }

    /** Rent of an academic building; the context argument is ignored, and so are
        the owner and the mortgage flag. */
    function CalculateRent(context: int): (r: int)
      reads this
      requires Valid() && kind.AcademicKind?
      ensures r == AcademicRent(name, improvements)
      ensures r >= 0
    {
      AcademicRent(name, improvements)
    }
  }
}
