# Watopoly core, modelled in Dafny

Watopoly is a Monopoly-style board game set on the University of Waterloo
campus. This project models the deterministic core of its C++ implementation:

- the **player ledger**: money, position on the 40-square ring, the DC Tims
  Line ("Tims") flag and turn counter, Roll Up the Rim cups and the list of
  owned building names (`player.dfy`, with the erase-remove list edit in
  `property_lists.dfy`);
- the **ownable buildings**: the owner token with `"BANK"` as the unowned
  sentinel, the landing classification into a `LandAction`
  (`land_action.dfy`), an academic building's improvement counter (0 to 5)
  and its rent table (`building.dfy`);
- the **game controller**: the player and building registries and the
  property-for-property trade (`controller.dfy`);
- the **board**: the fixed 40-square table, lookup by index and first-match
  lookup by name (`board.dfy`);
- the **display string helpers** of both board printouts (`display.dfy`,
  `new_display.dfy`, with `text.dfy`).

Classes whose fields the game updates in place are Dafny classes
(`Players.Player`, `Buildings.Building`, `GameControllers.GameController`).
Player and building methods carry field-level `modifies` frames; the two
trade methods may modify every registered player and building and pin each
mutable field in their `ensures` instead. Either way "nothing else changes" is
part of every contract. Code that only computes is written as functions and
lemmas. Loops of the source are methods with loop invariants, proved against
specification functions. Academic buildings, residences and gyms are one class
`Building` with a `Kind` tag and one named constructor per kind. Their four
`onLand` bodies branch identically, so they are modelled by one function
`Building.OnLand`. The board is a table of square values (`Board.Layout`).

C++ details made explicit: `%` truncates toward zero (`Players.Wrap`).
`substr` with a negative width keeps the whole string (`Display.FitToWidth`).
Thrown exceptions become `Outcome` failures carrying the same message.

## Model

| member | source | states |
|---|---|---|
| Players.Wrap | Player-impl.cc:78-86 | the truncating remainder by 40: in [0,40) for non-negative input, in (-40,0] for negative input, and congruent to the input modulo 40 |
| Players.Player.constructor | Player-impl.cc:19-20 | a new player has the given name, token and starting money, stands on square 0 outside Tims, with no Tims turns, no cups and an empty property list |
| Players.Player.Pay | Player-impl.cc:39-42 | money drops by exactly the amount, with no lower bound; nothing else changes |
| Players.Player.Receive | Player-impl.cc:46-49 | money rises by exactly the amount; nothing else changes |
| Players.PayThenReceive | Player-impl.cc:39-49 | paying an amount and receiving it back leaves the player unchanged |
| Players.ReceiveThenPay | Player-impl.cc:39-49 | receiving an amount and paying it back leaves the player unchanged |
| Players.Player.AddProperty | Player-impl.cc:53-55 | the name is appended after the existing entries (duplicates kept), and the player owns it afterwards |
| Players.Player.RemoveProperty | Player-impl.cc:58-63 | the list becomes the old list with every occurrence erased in order; the name is no longer owned; ownership of every other name is unchanged |
| Players.AddThenRemoveProperty | Player-impl.cc:53-63 | adding then removing a name erases it entirely, and restores the player exactly when the name was not owned before |
| Players.Player.Owns | Player-impl.cc:66-70 | true exactly when some index of the owned list holds the name |
| Players.Player.Move | Player-impl.cc:78-81 | the new position is the truncating remainder by 40 of old position plus steps; nothing else changes |
| Players.MoveStaysOnBoard | Player-impl.cc:78-81 | from a square on the board, a non-negative move lands in [0,40) at (position + steps) mod 40 |
| Players.Player.MoveTo | Player-impl.cc:83-86 | the position becomes the target's truncating remainder by 40; a target on the board is reached exactly |
| Players.MoveToNegativeStaysNegative | Player-impl.cc:83-86 | a negative target is not wrapped onto the board: the position ends at or below 0 |
| Players.Player.SetMoney | Player-impl.cc:88-90 | money becomes the given amount; nothing else changes |
| Players.Player.SetInTims | Player-impl.cc:96-98 | the Tims flag becomes the given value; nothing else changes |
| Players.Player.IncrementTimsTurn | Player-impl.cc:104-106 | the Tims turn counter rises by exactly one; flag, money and position stay |
| Players.Player.ResetTimsTurns | Player-impl.cc:108-110 | the Tims turn counter becomes 0; flag, money and position stay |
| Players.Player.AddRollUpCup | Player-impl.cc:113 | the cup count rises by exactly one; nothing else changes |
| Players.Player.UseRollUpCup | Player-impl.cc:114-116 | a positive cup count drops by one, otherwise it stays, so a non-negative count never goes negative |
| Players.AddThenUseCup | Player-impl.cc:113-116 | gaining a cup and spending it leaves the player unchanged |
| Players.Player.IsBankrupt | Player-impl.cc:118-120 | no player is ever reported bankrupt |
| PropertyLists.Without | Player-impl.cc:58-63 | the erased value is absent, every other value is present exactly when it was, and the list never grows |
| PropertyLists.WithoutAppend | Player-impl.cc:58-63 | erasing distributes over concatenation, so survivors keep their relative order |
| PropertyLists.WithoutCounts | Player-impl.cc:58-63 | every other value keeps its number of occurrences and the erased one has none |
| PropertyLists.WithoutAbsent | Player-impl.cc:58-63 | erasing a value that is not in the list changes nothing |
| PropertyLists.AppendThenWithout | Player-impl.cc:53-63 | appending a name and then erasing it equals erasing it alone |
| Buildings.Building.Academic | Academic-Building-impl.cc:18-23 | a new academic building is bank-owned, unmortgaged, has 0 improvements and keeps the given name, position, price, block and improvement cost |
| Buildings.Building.Residence | Residence-impl.cc:22-23 | a new residence is bank-owned and unmortgaged with the given name, position and price |
| Buildings.Building.Gym | Gym-impl.cc:20-21 | a new gym is bank-owned and unmortgaged with the given name, position and price |
| Buildings.Building.SetOwnerToken | Building-impl.cc:44-46 | the owner token becomes the given token; name, price and everything else stay |
| Buildings.Building.OnLand | Building-impl.cc:50-64 | exactly one of three answers: PromptPurchase iff the owner is the literal "BANK", PayRent iff the owner is neither "BANK" nor the lander's token, Owned iff it is the lander's token; it reads and changes nothing else |
| Buildings.Building.AddImprovement | Academic-Building-impl.cc:30-33 | fails with "Max improvements reached" at 5 and leaves the count, otherwise adds exactly one; the count stays within 0..5 |
| Buildings.Building.RemoveImprovement | Academic-Building-impl.cc:35-38 | fails with "No improvements to remove" at 0 and leaves the count, otherwise removes exactly one; the count stays within 0..5 |
| Buildings.Improved | Academic-Building-impl.cc:30-33 | adding succeeds exactly below 5, with one more improvement, and otherwise fails with "Max improvements reached" |
| Buildings.Degraded | Academic-Building-impl.cc:35-38 | removing succeeds exactly above 0, with one improvement fewer, and otherwise fails with "No improvements to remove" |
| Buildings.ImprovementStepsStayInRange | Academic-Building-impl.cc:30-38 | from a count in 0..5, adding succeeds exactly below 5 and removing exactly above 0, and each success stays in 0..5 |
| Buildings.ImproveDegradeRoundTrip | Academic-Building-impl.cc:30-38 | a successful add followed by a remove restores the count, and so does a remove followed by an add |
| Buildings.RentRowsIncreasing | Academic-Building-impl.cc:69-92 | every rent-table row has six entries, all positive and strictly increasing |
| Buildings.AcademicRent | Academic-Building-impl.cc:69-97 | the table entry for the name and level, positive for a listed name, and 0 for a name not in the table |
| Buildings.RentStrictlyMonotone | Academic-Building-impl.cc:69-92 | for a listed building, more improvements always mean strictly more rent |
| Buildings.Building.CalculateRent | Academic-Building-impl.cc:67-97 | the rent depends on the name and improvement count only (never owner, mortgage or the context argument) and is never negative |
| Buildings.ResidenceRent | Residence-impl.cc:7-11 | 25 for one residence owned, and each further residence doubles it (50, 100, 200) |
| Buildings.GymRent | Gym-impl.cc:5-7 | the documented gym rent (4 times the dice total with one gym, 10 times with two) is never negative for a non-negative roll |
| Buildings.GymRentGrowsWithGyms | Gym-impl.cc:5-7 | for a non-negative roll, owning both gyms never charges less than one: the rent grows by five halves, and only a roll of 0 is free |
| GameControllers.GameController.constructor | Game-Controller.cc:38-41 | a new controller has empty player and building registries |
| GameControllers.GameController.AddPlayer | Game-Controller-impl.cc:16-18 | the player is registered under its token, replacing any earlier one; every other token's lookup is unchanged |
| GameControllers.GameController.AddBuilding | Game-Controller-impl.cc:21-23 | the building is registered under its name, replacing any earlier one; every other name's lookup is unchanged |
| GameControllers.GameController.GetPlayer | Game-Controller-impl.cc:27-30 | null exactly for an unregistered token, otherwise the registered player |
| GameControllers.GameController.GetBuilding | Game-Controller-impl.cc:34-37 | null exactly for an unregistered name, otherwise the registered building |
| GameControllers.GameController.TradeAsWritten | Game-Controller-impl.cc:45-74 | an unknown token or name, or a side not owning what it offers, changes nothing; a success swaps the two owner tokens and edits both lists (giver loses give and gains receive, taker the reverse); money, position, Tims, cups, mortgage, improvements and every other player and building stay; owner tokens and lists stay in agreement when the two sides differ |
| GameControllers.GameController.Trade | Game-Controller-impl.cc:45-74 | the trade with self-trades refused: the same failure and success behaviour, and owner tokens and lists stay in agreement after every call |
| GameControllers.GameController.Swap | Game-Controller-impl.cc:62-70 | both owner tokens are swapped and both lists edited in the source's order, for distinct and for identical players |
| GameControllers.SelfTradeLosesBuilding | Game-Controller-impl.cc:45-74 | a player V owning DC and MC who trades DC for MC with V gets Traded, MC still names V as owner, and V's list is only DC |
| Board.Layout | Board-impl.cc:20-62 | name, position and kind (price, block, improvement cost) of each of the 40 squares as the board is filled; each square reports its own index and every ownable square has a positive price |
| Board.LayoutPositions | Board-impl.cc:20-62 | each of the 40 squares reports its own index as its position |
| Board.GetSquare | Board-impl.cc:73-76 | nothing exactly for positions below 0 or from 40 on, otherwise the square at that position |
| Board.FirstNamed | Board-impl.cc:79-84 | the lowest index from a start whose square has the name, or nothing when no later square has it |
| Board.GetSquareByName | Board-impl.cc:79-84 | nothing exactly when no square has the name, otherwise the square with the name at the lowest such index |
| Board.FirstIsUnique | Board-impl.cc:79-84 | an index holding the name with no earlier one is the first match |
| Board.NeedlesHallResolvesFirst | Board-impl.cc:25-59 | "NEEDLES HALL" stands at 2, 11, 22, 27 and 36, and a search finds 2 |
| Board.SlcResolvesFirst | Board-impl.cc:29-56 | "SLC" stands at 6, 16, 24 and 33, and a search finds 6 |
| Board.PacResolvesFirst | Board-impl.cc:28-41 | two gyms are named "PAC", at 5 and 18, and a search finds 5 |
| Board.TimsLineResolvesFirst | Board-impl.cc:31-43 | "DC Tims Line" stands at 8 and 20, and a search finds 8 |
| Board.AcademicSquaresPriced | Board-impl.cc:23-62 | every academic building on the board has a rent-table row, so its rent never falls back to 0 |
| Board.AcademicNamesUnique | Board-impl.cc:23-62 | no other square shares an academic building's name |
| Text.Repeat | Display-impl.cc:13 | the string of a non-negative count of one character: its length is the count and every character is that one |
| Display.MakeImprovements | Display-impl.cc:11-14 | empty for a count of zero or less, otherwise exactly that many 'I's |
| Display.FitToWidth | Display-impl.cc:17-20 | for a width of 0 or more the length is exactly the width: the prefix when the string is long enough, otherwise the string followed by spaces; a negative width keeps the string whole |
| Display.FitToWidthIdempotent | Display-impl.cc:17-20 | fitting twice to the same width is fitting once |
| Display.FitToWidthPrefix | Display-impl.cc:17-20 | each column of the cell holds the string's character there, or a space past its end |
| Display.PlayersOnSquare | Display-impl.cc:32-42 | the tokens of the players on the square, in list order, each followed by one space |
| Display.TokensOnEmpty | Display-impl.cc:32-42 | the text is empty when nobody is on the square, and with a space after each token an empty text means nobody is there |
| Display.TokensOnLength | Display-impl.cc:32-42 | the text's length is the total length of the on-square players' tokens plus one separator per such player |
| Display.SingleCharacterColumns | Display-impl.cc:32-42 | with one-character tokens, the on-square tokens take one column per player |
| Display.SingleCharacterTokensOnLength | Display-impl.cc:32-42 | with one-character tokens and a space after each, every player on the square takes two columns |
| Display.TokensOnContains | Display-impl.cc:32-42 | the token of every player on the square appears in the text followed by a space |
| NewDisplay.PlayerString | new_Display-impl.cc:18-31 | starts with the tokens of the players on the square run together in list order, then spaces only; length is the larger of 7 and the tokens' length (never cut); an empty square shows seven spaces |
| NewDisplay.ImprovementString | new_Display-impl.cc:33-38 | always seven columns: one 'I' per improvement of an academic building followed by spaces, and seven spaces for any other square |
| NewDisplay.ImprovementStringMatchesDisplay | new_Display-impl.cc:33-38 | the newer improvement cell equals the older printout's improvement marks fitted to seven columns |

## Left out

- The turn and economy methods of the controller (dice, turns, purchase, improve and degrade through the controller, monopolies, mortgage, auction, payment, bankruptcy, board setup) are declared in Game-Controller.cc:69-92 without bodies; they are not modelled.
- `isMortgaged` and `setMortgaged` are declared without definitions; the model keeps the `mortgaged` field and no operation on it.
- Getters (`getName`, `getToken`, `getMoney`, `getPosition`, `getPrice`, `getOwnerToken`, `getImprovementCount`, `getMonopolyBlock`, `getImprovementCost`, `isInTims`, `getTimsTurns`, `getRollUpCups`) are reads of the Dafny fields, which are visible to every contract.
- The default starting balance of 1500 is the constant `Players.DefaultStartMoney`; Dafny has no default arguments, so the constructor always takes the balance.
- Console output of `pay`, `receive`, `move`, `moveTo`, the `onLand` bodies and `trade`; `printGameBoard`, `printSeparator` and the graphical and text displays.
- main.cc: the command loop, argument parsing, random dice, and saving and loading games (file I/O).
- The non-ownable squares the board holds (Collect OSAP, DC Tims Line and GO TO TIMS as generic action squares, plus NEEDLES HALL, SLC and TUITION): their `onLand` bodies in Action-Squares-impl.cc only print, and their random or monetary effects are not in the source. The board keeps them as square values without behaviour.
- The `CollectOSAP`, `DCTimsLine`, `GooseNesting` and `CoopFee` classes are declared in Action-Squares.cc:71-102 without any definitions and are never placed on the board; they are not modelled.
- Board squares are values, not the building objects the controller registers; the model does not link a board square to a `Building`.
- `Board::display`, the board's destructor and all heap ownership (`new`/`delete`).
- C++ `int` overflow: money, positions and counters are unbounded integers.
- Academic, residence and gym landing: the four `onLand` bodies are the same branch on the owner token and are modelled by `Building.OnLand` once.
- Buildings.ResidenceRent: states the rent tiers from the documentation comment only; no code computes them.
- Buildings.GymRent: states the multipliers from the documentation comment only; no code computes them.
- NewDisplay.ImprovementString: takes a building or null; a board square that is no building is passed as null.

## Findings

| source | as written | input that shows it | evidently intended | confidence | as-written member | corrected member |
|---|---|---|---|---|---|---|
| Game-Controller-impl.cc:45-74 | `trade` accepts the same token on both sides; it then removes the received building from that player's list after adding it, while the building keeps naming the player as owner | player V owns DC and MC and enters `trade V DC MC` (main.cc:182-185 passes the current player's token as the giver) | a trade needs two different players; owner tokens and owned lists stay in agreement | not executed | GameControllers.GameController.TradeAsWritten, GameControllers.SelfTradeLosesBuilding | GameControllers.GameController.Trade |
