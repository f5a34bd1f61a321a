/** A player's ledger: money, place on the 40-square ring, the DC Tims Line
    ("Tims") status, Roll Up the Rim cups and the names of the buildings owned. */
module Players {
  import opened PropertyLists

  /** Number of squares on the board; positions wrap around modulo this. */
  const BoardSize: int := 40

  /** The starting balance a player gets when the caller gives none. */
  const DefaultStartMoney: int := 1500

  /** C++'s `a % 40`: the remainder truncates toward zero, so it takes the sign
      of `a` (Dafny's own `%` never goes negative). */
  function Wrap(a: int): (r: int)
    ensures a >= 0 ==> 0 <= r < BoardSize
    ensures a < 0 ==> -BoardSize < r <= 0
    ensures (a - r) % BoardSize == 0
  {
    if a >= 0 then a % BoardSize else -((-a) % BoardSize)
  }

  /** Everything about a player that a trade must leave alone. */
  datatype Standing = Standing(money: int, position: int, inTims: bool, timsTurns: int, rollUpCups: int)

  class Player {
    const name: string
    const token: string
    var money: int
    var ownedBuildings: seq<string>
    var position: int
    var inTims: bool
    var timsTurns: int
    var rollUpCups: int

    /** A new player stands on square 0, outside Tims, with no cups and no buildings. */
    constructor (name: string, token: string, startMoney: int)
      ensures this.name == name && this.token == token && money == startMoney
      ensures position == 0 && !inTims && timsTurns == 0 && rollUpCups == 0
      ensures ownedBuildings == []
    {
      this.name := name;
      this.token := token;
      money := startMoney;
      ownedBuildings := [];
      position := 0;
      inTims := false;
      timsTurns := 0;
      rollUpCups := 0;
    }

    ghost function CurrentStanding(): Standing
      reads this
    {
      Standing(money, position, inTims, timsTurns, rollUpCups)
    }

    /** Deducts `amount` with no lower bound: the balance may go negative. */
    method Pay(amount: int)
      modifies this`money
      ensures money == old(money) - amount
    {
      money := money - amount;
    }

    method Receive(amount: int)
      modifies this`money
      ensures money == old(money) + amount
    {
      money := money + amount;
    }

    /** Appends the name; duplicates are kept. */
    method AddProperty(buildingName: string)
      modifies this`ownedBuildings
      ensures ownedBuildings == old(ownedBuildings) + [buildingName]
      ensures Owns(buildingName)
    {
      ownedBuildings := ownedBuildings + [buildingName];
    }

    /** Erases every occurrence of the name, keeping the order of the others. */
    method RemoveProperty(buildingName: string)
      modifies this`ownedBuildings
      ensures ownedBuildings == Without(old(ownedBuildings), buildingName)
      ensures !Owns(buildingName)
      ensures forall n :: n != buildingName ==> (Owns(n) <==> old(Owns(n)))
    {
      ownedBuildings := Without(ownedBuildings, buildingName);
    }

    /** Linear search of the owned list for the name. */
    predicate Owns(buildingName: string)
      reads this
      ensures Owns(buildingName) <==> exists i :: 0 <= i < |ownedBuildings| && ownedBuildings[i] == buildingName
    {
      buildingName in ownedBuildings
    }

    /** Advances with wraparound, using C++'s truncating remainder. */
    method Move(steps: int)
      modifies this`position
      ensures position == Wrap(old(position) + steps)
    {
      position := Wrap(position + steps);
    }

    /** Jumps to a square, wrapped like a move; a square on the board is reached exactly. */
    method MoveTo(newPosition: int)
      modifies this`position
      ensures position == Wrap(newPosition)
      ensures 0 <= newPosition < BoardSize ==> position == newPosition
    {
      position := Wrap(newPosition);
    }

    method SetMoney(newAmount: int)
      modifies this`money
      ensures money == newAmount
    {
      money := newAmount;
    }

    method SetInTims(value: bool)
      modifies this`inTims
      ensures inTims == value
    {
      inTims := value;
    }

    method IncrementTimsTurn()
      modifies this`timsTurns
      ensures timsTurns == old(timsTurns) + 1
    {
      timsTurns := timsTurns + 1;
    }

    method ResetTimsTurns()
      modifies this`timsTurns
      ensures timsTurns == 0
    {
      timsTurns := 0;
    }

    method AddRollUpCup()
      modifies this`rollUpCups
      ensures rollUpCups == old(rollUpCups) + 1
    {
      rollUpCups := rollUpCups + 1;
    }

    /** Spends a cup if there is one; with none left it does nothing. */
    method UseRollUpCup()
      modifies this`rollUpCups
      ensures old(rollUpCups) > 0 ==> rollUpCups == old(rollUpCups) - 1
      ensures old(rollUpCups) <= 0 ==> rollUpCups == old(rollUpCups)
      ensures old(rollUpCups) >= 0 ==> rollUpCups >= 0
    {
      if rollUpCups > 0 {
        rollUpCups := rollUpCups - 1;
      }
    }

    /** A placeholder in the game: no player is ever reported bankrupt. */
    function IsBankrupt(): (b: bool)
      ensures !b
    {
      false
    }
  }

  /** From a square on the board, a forward move of any length lands on the board,
      at the position plain modular arithmetic gives. */
  lemma MoveStaysOnBoard(position: int, steps: int)
    requires 0 <= position < BoardSize && steps >= 0
    ensures 0 <= Wrap(position + steps) < BoardSize
    ensures Wrap(position + steps) == (position + steps) % BoardSize
  {
  }

  /** A negative target is not wrapped onto the board: it stays negative. */
  lemma MoveToNegativeStaysNegative(target: int)
    requires target < 0
    ensures Wrap(target) <= 0
    ensures target % BoardSize != 0 ==> Wrap(target) < 0
  {
  }

  /** Paying an amount and receiving it back leaves the player exactly as before. */
  method PayThenReceive(p: Player, amount: int)
    modifies p
    ensures unchanged(p)
  {
    p.Pay(amount);
    p.Receive(amount);
  }

  /** Receiving an amount and paying it back leaves the player exactly as before. */
  method ReceiveThenPay(p: Player, amount: int)
    modifies p
    ensures unchanged(p)
  {
    p.Receive(amount);
    p.Pay(amount);
  }

  /** Gaining a cup and spending it leaves the player exactly as before. */
  method AddThenUseCup(p: Player)
    requires p.rollUpCups >= 0
    modifies p
    ensures unchanged(p)
  {
    p.AddRollUpCup();
    p.UseRollUpCup();
  }

  /** Adding a building and removing it again erases the name entirely, and
      restores the list when the name was not there before. */
  method AddThenRemoveProperty(p: Player, buildingName: string)
    modifies p
    ensures p.ownedBuildings == Without(old(p.ownedBuildings), buildingName)
    ensures !old(p.Owns(buildingName)) ==> unchanged(p)
  {
    p.AddProperty(buildingName);
    p.RemoveProperty(buildingName);
    AppendThenWithout(old(p.ownedBuildings), buildingName);
    if buildingName !in old(p.ownedBuildings) {
      WithoutAbsent(old(p.ownedBuildings), buildingName);
    }
  }
}
